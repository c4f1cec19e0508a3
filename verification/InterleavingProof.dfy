/** Every step of the concurrent token endpoint keeps its invariant. */
module InterleavingProof {
  import opened Basics
  import opened Records
  import opened Issuance
  import opened Interleaving
  import Memory
  import E = Exchange
  import A = AtomicGrants

  // --- Minting ----------------------------------------------------------------

  lemma NarrowedTrans(a: seq<string>, b: seq<string>, c: seq<string>)
    requires Interleaving.Narrowed(a, b) && Interleaving.Narrowed(b, c)
    ensures Interleaving.Narrowed(a, c)
  {
  }

  /** Whatever the registration, the request and the hook, the records minted for
      a grant belong to it: refresh tokens carry exactly its scopes and audience,
      access tokens a part of them. */
  lemma MintedBelong(cfg: Config, client: Client, grant: Token, plan: Plan, id: Identity, scopes: seq<string>,
                     withRefresh: bool, hook: Option<HookResult>, access: Hash, refresh: Hash, now: Time)
    requires cfg.Valid() && cfg.Registered(client, client.id)
    requires IdentityOf(grant) == id && Interleaving.Narrowed(scopes, grant.scopes)
    requires Planned(cfg, client, grant.audience, scopes, withRefresh, hook) == Ok(plan)
    ensures Belongs(AccessRecord(grant, plan, access, now), id)
    ensures Belongs(RefreshRecord(grant, plan, refresh, now), id)
  {
    AnyHookIsSafe(cfg, client, grant.audience, scopes, withRefresh, hook);
    NarrowedTrans(plan.scopes, scopes, grant.scopes);
  }

  function AccessRecord(grant: Token, plan: Plan, value: Hash, now: Time): Token {
    E.AccessRecord(grant, plan, value, now)
  }

  function RefreshRecord(grant: Token, plan: Plan, value: Hash, now: Time): Token {
    E.RefreshRecord(grant, plan, value, now)
  }

  lemma NarrowScopesNarrows(allowed: seq<string>, requested: Option<seq<string>>)
    requires E.NarrowScopes(allowed, requested).Ok?
    ensures Interleaving.Narrowed(E.NarrowScopes(allowed, requested).value, allowed)
  {
  }

  lemma MintedRecordsOK(s: State, grant: Token, plan: Plan, access: Hash, refresh: Hash, now: Time)
    requires grant.grantID in s.grants && access in s.used && refresh in s.used && access != refresh
    requires Belongs(AccessRecord(grant, plan, access, now), s.grants[grant.grantID])
    requires Belongs(RefreshRecord(grant, plan, refresh, now), s.grants[grant.grantID])
    ensures RecordsOK(s, grant.grantID, E.Minted(grant, plan, access, refresh, now))
  {
  }

  // --- Steps that change no token ---------------------------------------------

  lemma TokensStayOK(s: State, s': State)
    requires TokensOK(s) && s'.tokens == s.tokens && s.used <= s'.used && s'.disclosed == s.disclosed
    requires s'.public == s.public
    requires forall g :: g in s.grants ==> g in s'.grants && s'.grants[g] == s.grants[g]
    ensures TokensOK(s')
  {
    forall h | h in s'.tokens ensures TokenOK(s', h, s'.tokens[h]) {
      assert TokenOK(s, h, s.tokens[h]);
    }
  }

  /** A process starts or moves on, and nothing else changes but fresh values. */
  lemma IdleStep(s: State, s': State, pid: nat)
    requires Inv(s) && s'.tokens == s.tokens && s'.now == s.now && s.used <= s'.used
    requires forall g :: g in s.grants ==> g in s'.grants && s'.grants[g] == s.grants[g]
    requires s'.disclosed == s.disclosed && s'.public == s.public && s'.revoked == s.revoked
    requires pid in s'.procs && s'.procs == s.procs[pid := s'.procs[pid]] && ProcOK(s', s'.procs[pid])
    requires forall x :: x in s.procs && x != pid ==> Apart(s'.procs[pid], s.procs[x])
    ensures Inv(s')
  {
    TokensStayOK(s, s');
    forall x | x in s.procs && x != pid ensures s'.procs[x] == s.procs[x] && Rely(s, s', s.procs[x]) {
      RelyIdle(s, s', s.procs[x]);
    }
    Assemble(s, s', pid);
  }

  /** A process only changes its program counter and verdict. */
  lemma MoveKeepsInv(s: State, pid: nat, pc: PC, verdict: Verdict)
    requires Inv(s) && pid in s.procs && !pc.Storing? && verdict != Delivered && s.procs[pid].verdict != Delivered
    requires !pc.Discarding? && !pc.Finished? ==> verdict == Undecided
    requires verdict == s.procs[pid].verdict || VerdictOK(s, s.procs[pid].(pc := pc, verdict := verdict))
    ensures Inv(Goto(s, pid, pc, verdict))
  {
    var s' := Goto(s, pid, pc, verdict);
    assert ProcOK(s, s.procs[pid]);
    Stable(s, s', s.procs[pid]) by { RelyIdle(s, s', s.procs[pid]); }
    forall x | x in s.procs && x != pid ensures Apart(s'.procs[pid], s.procs[x]) {
      assert Apart(s.procs[pid], s.procs[x]);
    }
    IdleStep(s, s', pid);
  }

  lemma StartKeepsInv(s: State, pid: nat, p: Proc)
    requires Inv(s) && pid !in s.procs && p.pc == Loaded && p.verdict == Undecided && p.records == []
    requires p.job.RevokingToken? || p.job.Exchanging?
    requires ProcOK(s, p) && p.token.hash in s.tokens && p.token == s.tokens[p.token.hash]
    ensures Inv(s.(procs := s.procs[pid := p]))
  {
    var s' := s.(procs := s.procs[pid := p]);
    Stable(s, s', p) by { RelyIdle(s, s', p); }
    forall x | x in s.procs ensures Apart(p, s.procs[x]) {
      assert ProcOK(s, s.procs[x]);
    }
    IdleStep(s, s', pid);
  }

  lemma LoadedTokenOK(s: State, h: Hash)
    requires Inv(s) && h in s.tokens && h in s.disclosed
    ensures LoadedOK(s, s.tokens[h]) && s.tokens[h].hash == h
  {
    assert TokenOK(s, h, s.tokens[h]);
  }

  lemma LoadKeepsInv(cfg: Config, s: State, pid: nat, a: E.Attempt)
    requires Inv(s) && Enabled(cfg, s, Load(pid, a))
    ensures Inv(Next(cfg, s, Load(pid, a)))
  {
    LoadedTokenOK(s, a.value);
    StartKeepsInv(s, pid, Proc(Exchanging(a), s.tokens[a.value], [], Loaded, Undecided));
  }

  lemma LoadRevocationKeepsInv(cfg: Config, s: State, act: Action)
    requires act.LoadRevocation? && Inv(s) && Enabled(cfg, s, act)
    ensures Inv(Next(cfg, s, act))
  {
    LoadedTokenOK(s, act.hash);
    StartKeepsInv(s, act.pid, Proc(RevokingToken(act.issuer, act.clientID), s.tokens[act.hash], [], Loaded, Undecided));
  }

  lemma FreshRecordsApart(s: State, q: Proc, p: Proc, access: Hash, refresh: Hash)
    requires Fresh(s, access, refresh) && ProcOK(s, q)
    requires forall i :: 0 <= i < |p.records| ==> p.records[i].hash in {access, refresh}
    requires !p.job.Issuing? || (q.job.Issuing? ==> p.token.grantID !in s.grants)
    requires p.verdict != Delivered
    requires !p.job.Issuing? && !q.job.Issuing? && p.token.hash == q.token.hash ==>
      p.token.(consumedAt := None) == q.token.(consumedAt := None)
    ensures Apart(p, q)
  {
    forall j | 0 <= j < |q.records| ensures q.records[j].hash in s.used {
      assert RecordOK(s, q.token.grantID, q.records[j]);
    }
  }

  lemma FreshRecordsHidden(s: State, rs: seq<Token>, access: Hash, refresh: Hash, alive: bool)
    requires TokensOK(s) && GhostOK(s) && Fresh(s, access, refresh) && 1 <= |rs|
    requires forall i :: 0 <= i < |rs| ==> rs[i].hash in {access, refresh}
    ensures Hidden(s, rs) && Own(s, rs) && StoredSoFar(s, rs, 0, alive)
  {
    forall h | h in s.tokens ensures h in s.used {
      assert TokenOK(s, h, s.tokens[h]);
    }
  }

  /** A process mints records under fresh hashes. */
  lemma NewRecordsStep(s: State, s': State, pid: nat, access: Hash, refresh: Hash)
    requires Inv(s) && Fresh(s, access, refresh)
    requires s'.tokens == s.tokens && s'.now == s.now && s.used <= s'.used
    requires forall g :: g in s.grants ==> g in s'.grants && s'.grants[g] == s.grants[g]
    requires s'.disclosed == s.disclosed && s'.public == s.public && s'.revoked == s.revoked
    requires pid in s'.procs && s'.procs == s.procs[pid := s'.procs[pid]]
    requires ProcOK(s', s'.procs[pid]) && s'.procs[pid].verdict != Delivered
    requires forall i :: 0 <= i < |s'.procs[pid].records| ==> s'.procs[pid].records[i].hash in {access, refresh}
    requires s'.procs[pid].job.Issuing? ==> s'.procs[pid].token.grantID !in s.grants
    requires !s'.procs[pid].job.Issuing? ==>
      pid in s.procs && !s.procs[pid].job.Issuing? && s.procs[pid].token == s'.procs[pid].token
    ensures Inv(s')
  {
    forall x | x in s.procs && x != pid ensures Apart(s'.procs[pid], s.procs[x]) {
      assert ProcOK(s, s.procs[x]);
      if pid in s.procs { assert Apart(s.procs[pid], s.procs[x]); }
      FreshRecordsApart(s, s.procs[x], s'.procs[pid], access, refresh);
    }
    IdleStep(s, s', pid);
  }

  lemma MintedProcOK(s: State, s': State, p: Proc, plan: Plan, rs: seq<Token>)
    requires Inv(s) && ProcOK(s, p) && p.job.Exchanging? && p.verdict == Undecided
    requires Fresh(s, p.job.a.access, p.job.a.refresh)
    requires rs == E.Minted(p.token, plan, p.job.a.access, p.job.a.refresh, s.now)
    requires s'.tokens == s.tokens && s'.now == s.now && s'.disclosed == s.disclosed && s'.public == s.public
    requires s'.revoked == s.revoked && s'.grants == s.grants && s'.used == s.used + {p.job.a.access, p.job.a.refresh}
    requires Belongs(AccessRecord(p.token, plan, p.job.a.access, s.now), s.grants[p.token.grantID])
    requires Belongs(RefreshRecord(p.token, plan, p.job.a.refresh, s.now), s.grants[p.token.grantID])
    ensures ProcOK(s', p.(records := rs, pc := Storing(0)))
  {
    var a := p.job.a;
    MintedRecordsOK(s', p.token, plan, a.access, a.refresh, s.now);
    FreshRecordsHidden(s, rs, a.access, a.refresh, p.token.hash in s.tokens);
    assert LoadedOK(s', p.token);
  }

  lemma PlansBelong(cfg: Config, t: Token, a: E.Attempt, plan: Plan, now: Time)
    requires cfg.Valid() && cfg.Registered(a.client, a.client.id) && E.PlanAttempt(cfg, t, a) == Ok(plan)
    ensures Belongs(AccessRecord(t, plan, a.access, now), IdentityOf(t))
    ensures Belongs(RefreshRecord(t, plan, a.refresh, now), IdentityOf(t))
  {
    NarrowScopesNarrows(t.scopes, a.scopes);
    MintedBelong(cfg, a.client, t, plan, IdentityOf(t), E.NarrowScopes(t.scopes, a.scopes).value,
      E.WithRefresh(a, t), a.hook, a.access, a.refresh, now);
  }

  lemma MintKeepsInv(s: State, pid: nat, plan: Plan)
    requires Inv(s) && ExchangingAt(s, pid, Validated)
    requires Fresh(s, s.procs[pid].job.a.access, s.procs[pid].job.a.refresh)
    requires var t := s.procs[pid].token;
      && Belongs(AccessRecord(t, plan, s.procs[pid].job.a.access, s.now), IdentityOf(t))
      && Belongs(RefreshRecord(t, plan, s.procs[pid].job.a.refresh, s.now), IdentityOf(t))
    ensures var p := s.procs[pid];
      Inv(AfterMint(s, pid, E.Minted(p.token, plan, p.job.a.access, p.job.a.refresh, s.now)))
  {
    var p := s.procs[pid];
    var a := p.job.a;
    var rs := E.Minted(p.token, plan, a.access, a.refresh, s.now);
    assert ProcOK(s, p);
    MintedProcOK(s, AfterMint(s, pid, rs), p, plan, rs);
    NewRecordsStep(s, AfterMint(s, pid, rs), pid, a.access, a.refresh);
  }

  lemma StartIssueKeepsInv(s: State, pid: nat, client: Client, grant: Token, access: Hash, refresh: Hash, plan: Plan)
    requires client.id == grant.clientID
    requires Inv(s) && pid !in s.procs && grant.grantID !in s.grants && Fresh(s, access, refresh)
    requires Belongs(AccessRecord(grant, plan, access, s.now), IdentityOf(grant))
    requires Belongs(RefreshRecord(grant, plan, refresh, s.now), IdentityOf(grant))
    ensures Inv(AfterStartIssue(s, pid, client, grant, E.Minted(grant, plan, access, refresh, s.now), access, refresh))
  {
    var rs := E.Minted(grant, plan, access, refresh, s.now);
    var s' := AfterStartIssue(s, pid, client, grant, rs, access, refresh);
    MintedRecordsOK(s', grant, plan, access, refresh, s.now);
    FreshRecordsHidden(s, rs, access, refresh, true);
    NewRecordsStep(s, s', pid, access, refresh);
  }

  // --- Steps that store, consume, disclose or delete -----------------------------

  lemma OwnApart(s: State, s': State, pid: nat)
    requires AllApart(s) && pid in s.procs && pid in s'.procs
    requires s'.procs[pid].job == s.procs[pid].job && s'.procs[pid].token == s.procs[pid].token
    requires s'.procs[pid].records == s.procs[pid].records && s'.procs[pid].verdict != Delivered
    ensures forall x :: x in s.procs && x != pid ==> Apart(s'.procs[pid], s.procs[x])
  {
    forall x | x in s.procs && x != pid ensures Apart(s'.procs[pid], s.procs[x]) {
      assert Apart(s.procs[pid], s.procs[x]);
    }
  }

  lemma StoreKeepsInv(s: State, pid: nat)
    requires Inv(s) && pid in s.procs && s.procs[pid].pc.Storing? && s.procs[pid].pc.stored < |s.procs[pid].records|
    ensures Inv(AfterStore(s, pid, true))
  {
    var p := s.procs[pid];
    var n := p.pc.stored;
    var r := p.records[n];
    var s' := AfterStore(s, pid, true);
    assert ProcOK(s, p) && RecordOK(s, p.token.grantID, r) && r.hash !in s.tokens && r.hash !in s.disclosed;
    InsertKeepsTokens(s, s', p.token.grantID, r);
    forall x | x in s.procs && x != pid ensures s'.procs[x] == s.procs[x] && Rely(s, s', s.procs[x]) {
      assert Apart(p, s.procs[x]) && ProcOK(s, s.procs[x]);
      RelyInsert(s, s', s.procs[x], r);
    }
    StoredOwnOK(s, s', p, r);
    OwnApart(s, s', pid);
    Assemble(s, s', pid);
  }

  lemma InsertKeepsTokens(s: State, s': State, g: string, r: Token)
    requires TokensOK(s) && SameHistory(s, s') && s'.tokens == s.tokens[r.hash := r]
    requires RecordOK(s, g, r) && r.hash !in s.disclosed
    ensures TokensOK(s')
  {
    forall h | h in s'.tokens ensures TokenOK(s', h, s'.tokens[h]) {
      if h != r.hash { assert TokenOK(s, h, s.tokens[h]); }
    }
  }

  lemma StoredOwnOK(s: State, s': State, p: Proc, r: Token)
    requires ProcOK(s, p) && p.pc.Storing? && p.pc.stored < |p.records| && r == p.records[p.pc.stored]
    requires SameHistory(s, s') && s'.tokens == s.tokens[r.hash := r] && r.hash !in s.tokens && r.hash !in s.disclosed
    ensures ProcOK(s', p.(pc := Storing(p.pc.stored + 1)))
  {
    var n := p.pc.stored;
    assert RecordsOK(s', p.token.grantID, p.records);
    var alive := p.job.Exchanging? ==> p.token.hash in s.tokens;
    assert StoredSoFar(s, p.records, n, alive);
    assert StoredSoFar(s', p.records, n + 1, alive) by {
      forall i, j | 0 <= i < j < |p.records| ensures p.records[i].hash != p.records[j].hash {}
    }
  }

  lemma RemoveKeepsTokens(s: State, s': State)
    requires TokensOK(s) && SameHistory(s, s'.(revoked := s.revoked))
    requires forall h :: h in s'.tokens ==> h in s.tokens && s'.tokens[h] == s.tokens[h]
    ensures TokensOK(s')
  {
    forall h | h in s'.tokens ensures TokenOK(s', h, s'.tokens[h]) {
      assert TokenOK(s, h, s.tokens[h]);
    }
  }

  lemma DiscardKeepsInv(s: State, pid: nat)
    requires Inv(s) && pid in s.procs && s.procs[pid].pc.Discarding?
      && s.procs[pid].pc.discarded < |s.procs[pid].records|
    ensures Inv(AfterDiscard(s, pid, true))
  {
    var p := s.procs[pid];
    var h := p.records[p.pc.discarded].hash;
    var s' := AfterDiscard(s, pid, true);
    assert ProcOK(s, p) && h !in s.disclosed;
    RemoveKeepsTokens(s, s');
    forall x | x in s.procs && x != pid ensures s'.procs[x] == s.procs[x] && Rely(s, s', s.procs[x]) {
      assert Apart(p, s.procs[x]) && ProcOK(s, s.procs[x]);
      RelyRemove(s, s', s.procs[x], h);
    }
    Stable(s, s', p) by { RelyRemove(s, s', p, h); }
    OwnApart(s, s', pid);
    Assemble(s, s', pid);
  }

  lemma RevokeGrantKeepsInv(s: State, pid: nat, pc: PC, verdict: Verdict)
    requires Inv(s) && pid in s.procs && !s.procs[pid].job.Issuing? && !s.procs[pid].pc.Storing?
    requires s.procs[pid].verdict != Delivered && (pc.Discarding? || pc.Finished?) && verdict in {Reused, Served}
    ensures Inv(Goto(RevokingGrant(s, s.procs[pid].token.grantID), pid, pc, verdict))
  {
    var p := s.procs[pid];
    var s' := Goto(RevokingGrant(s, p.token.grantID), pid, pc, verdict);
    assert ProcOK(s, p);
    RemoveKeepsTokens(s, s');
    forall x | x in s.procs && x != pid ensures s'.procs[x] == s.procs[x] && Rely(s, s', s.procs[x]) {
      assert ProcOK(s, s.procs[x]);
      RelyRevokeGrant(s, s', s.procs[x], p.token.grantID);
    }
    Stable(s, s', p) by { RelyRevokeGrant(s, s', p, p.token.grantID); }
    OwnApart(s, s', pid);
    Assemble(s, s', pid);
  }

  lemma RevokeTokenKeepsInv(s: State, pid: nat)
    requires Inv(s) && pid in s.procs && s.procs[pid].job.RevokingToken? && s.procs[pid].pc == Loaded
    requires s.procs[pid].token.kind != RefreshToken
    ensures Inv(AfterRevoke(s, pid, true))
  {
    var p := s.procs[pid];
    var h := p.token.hash;
    var s' := AfterRevoke(s, pid, true);
    assert ProcOK(s, p) && LoadedOK(s, p.token);
    RemoveKeepsTokens(s, s');
    if h !in s.tokens {
      assert s'.tokens == s.tokens;
      MoveKeepsInv(s, pid, Finished, Served);
    } else {
      forall x | x in s.procs && x != pid ensures s'.procs[x] == s.procs[x] && Rely(s, s', s.procs[x]) {
        assert ProcOK(s, s.procs[x]);
        RelyRemove(s, s', s.procs[x], h);
      }
      Stable(s, s', p) by { RelyRemove(s, s', p, h); }
      OwnApart(s, s', pid);
      Assemble(s, s', pid);
    }
  }

  /** What disclosing the records of `p` does, after consuming its credential if
      it has one. */
  ghost predicate Discloses(s: State, s': State, p: Proc) {
    && p.pc == Storing(|p.records|) && !p.job.RevokingToken?
    && SameHistory(s, s'.(disclosed := s.disclosed, public := s.public))
    && s'.disclosed == s.disclosed + A.Hashes(p.records) && s'.public == s.public + {p.token.grantID}
    && (p.job.Issuing? ==> s'.tokens == s.tokens)
    && (p.job.Exchanging? ==>
         && p.token.hash in s.tokens && s.tokens[p.token.hash].consumedAt == None
         && s'.tokens == Memory.Consumed(s.tokens, p.token.hash, s.now))
  }

  lemma DiscloseKeepsInv(s: State, s': State, pid: nat)
    requires Inv(s) && pid in s.procs && Discloses(s, s', s.procs[pid])
    requires s'.procs == s.procs[pid := s.procs[pid].(pc := Finished, verdict := Delivered)]
    ensures Inv(s')
  {
    var p := s.procs[pid];
    assert ProcOK(s, p);
    DisclosedTokensOK(s, s', p);
    forall x | x in s.procs && x != pid ensures s'.procs[x] == s.procs[x] && Rely(s, s', s.procs[x]) {
      assert Apart(p, s.procs[x]) && ProcOK(s, s.procs[x]);
      RelyDisclose(s, s', s.procs[x], p);
    }
    DisclosedGhostOK(s, s', p);
    DisclosedOwnOK(s, s', p);
    forall x | x in s.procs && x != pid ensures Apart(s'.procs[pid], s.procs[x]) {
      assert Apart(p, s.procs[x]) && ProcOK(s, s.procs[x]);
      DeliveredApart(s, p, s.procs[x]);
    }
    Assemble(s, s', pid);
  }

  lemma DeliveredApart(s: State, p: Proc, q: Proc)
    requires Apart(p, q) && ProcOK(s, q)
    requires p.job.Exchanging? ==> p.token.hash in s.tokens && s.tokens[p.token.hash].consumedAt == None
    ensures Apart(p.(pc := Finished, verdict := Delivered), q)
  {
  }

  lemma DisclosedGhostOK(s: State, s': State, p: Proc)
    requires GhostOK(s) && ProcOK(s, p) && Discloses(s, s', p)
    ensures GhostOK(s')
  {
    forall i | 0 <= i < |p.records| ensures p.records[i].hash in s.used {
      assert RecordOK(s, p.token.grantID, p.records[i]);
    }
    assert RecordOK(s, p.token.grantID, p.records[0]);
  }

  lemma DisclosedTokensOK(s: State, s': State, p: Proc)
    requires TokensOK(s) && ProcOK(s, p) && Discloses(s, s', p)
    ensures TokensOK(s')
  {
    forall h | h in s'.tokens ensures TokenOK(s', h, s'.tokens[h]) {
      assert TokenOK(s, h, s.tokens[h]);
      if h in A.Hashes(p.records) {
        var r :| r in p.records && r.hash == h;
        var i :| 0 <= i < |p.records| && p.records[i] == r;
        assert s.tokens[h] == r && RecordOK(s, p.token.grantID, r);
      }
    }
  }

  lemma DisclosedOwnOK(s: State, s': State, p: Proc)
    requires ProcOK(s, p) && Discloses(s, s', p)
    ensures ProcOK(s', p.(pc := Finished, verdict := Delivered))
  {
    assert RecordsOK(s', p.token.grantID, p.records);
  }

  lemma ExpireKeepsInv(s: State, hashes: set<Hash>)
    requires Inv(s)
    requires forall h :: h in hashes && h in s.tokens ==> Collectable(s.now, s.tokens[h].expiresAt)
    ensures Inv(s.(tokens := s.tokens - hashes))
  {
    var s' := s.(tokens := s.tokens - hashes);
    RemoveKeepsTokens(s, s');
    forall x | x in s.procs ensures Rely(s, s', s.procs[x]) {
      assert ProcOK(s, s.procs[x]);
      RelyExpire(s, s', s.procs[x], hashes);
    }
    AssembleAll(s, s');
  }

  lemma AdvanceKeepsInv(s: State, now: Time)
    requires Inv(s) && s.now <= now
    ensures Inv(s.(now := now))
  {
    var s' := s.(now := now);
    TokensStayOK(s, s');
    forall x | x in s.procs ensures Rely(s, s', s.procs[x]) {
      RelyIdle(s, s', s.procs[x]);
    }
    AssembleAll(s, s');
  }

  lemma IssueCodeKeepsInv(s: State, t: Token)
    requires Inv(s) && t.kind == AuthorizationCode && t.consumedAt == None && t.hash !in s.used
      && t.grantID !in s.grants
    ensures Inv(AfterIssueCode(s, t))
  {
    var s' := AfterIssueCode(s, t);
    forall h | h in s'.tokens ensures TokenOK(s', h, s'.tokens[h]) {
      if h != t.hash { assert TokenOK(s, h, s.tokens[h]); }
    }
    forall x | x in s.procs ensures Rely(s, s', s.procs[x]) {
      assert ProcOK(s, s.procs[x]);
      RelyIssueCode(s, s.procs[x], t);
    }
    AssembleAll(s, s');
  }

  lemma ConsumeKeepsInv(s: State, pid: nat, ok: bool)
    requires Inv(s) && pid in s.procs && ExchangingAt(s, pid, Storing(|s.procs[pid].records|))
    ensures Inv(AfterConsume(s, pid, ok))
  {
    var p := s.procs[pid];
    assert ProcOK(s, p) && LoadedOK(s, p.token);
    if !ok {
      MoveKeepsInv(s, pid, Discarding(0), Failed);
    } else if p.token.hash !in s.tokens {
      MoveKeepsInv(s, pid, Discarding(0), Gone);
    } else if s.tokens[p.token.hash].consumedAt.Some? {
      MoveKeepsInv(s, pid, Revoking, Undecided);
    } else {
      DiscloseKeepsInv(s, AfterConsume(s, pid, ok), pid);
    }
  }

  lemma StoreStep(s: State, pid: nat, ok: bool)
    requires Inv(s) && pid in s.procs && s.procs[pid].pc.Storing? && s.procs[pid].pc.stored < |s.procs[pid].records|
    ensures Inv(AfterStore(s, pid, ok))
  {
    assert ProcOK(s, s.procs[pid]);
    if ok {
      StoreKeepsInv(s, pid);
    } else {
      MoveKeepsInv(s, pid, Discarding(0), Failed);
    }
  }

  lemma DeliverStep(s: State, pid: nat)
    requires Inv(s) && CanChange(s, Deliver(pid))
    ensures Inv(Disclosing(s, pid, None))
  {
    DiscloseKeepsInv(s, Disclosing(s, pid, None), pid);
  }

  lemma DiscardStep(s: State, pid: nat, ok: bool)
    requires Inv(s) && pid in s.procs && s.procs[pid].pc.Discarding?
      && s.procs[pid].pc.discarded < |s.procs[pid].records|
    ensures Inv(AfterDiscard(s, pid, ok))
  {
    if ok {
      DiscardKeepsInv(s, pid);
    } else {
      SkipKeepsInv(s, pid, Discarding(s.procs[pid].pc.discarded + 1));
    }
  }

  lemma RevokeReusedStep(s: State, pid: nat, ok: bool)
    requires Inv(s) && ExchangingAt(s, pid, Revoking)
    ensures Inv(AfterRevokeReused(s, pid, ok))
  {
    assert ProcOK(s, s.procs[pid]);
    if ok {
      RevokeGrantKeepsInv(s, pid, Discarding(0), Reused);
    } else {
      MoveKeepsInv(s, pid, Discarding(0), Failed);
    }
  }

  lemma RevokeStep(s: State, pid: nat, ok: bool)
    requires Inv(s) && At(s, pid, Loaded) && s.procs[pid].job.RevokingToken?
    ensures Inv(AfterRevoke(s, pid, ok))
  {
    assert ProcOK(s, s.procs[pid]);
    if !ok {
      MoveKeepsInv(s, pid, Finished, Failed);
    } else if s.procs[pid].token.kind == RefreshToken {
      RevokeGrantKeepsInv(s, pid, Finished, Served);
    } else {
      RevokeTokenKeepsInv(s, pid);
    }
  }

  lemma ChangeKeepsInv(s: State, act: Action)
    requires Inv(s) && act.ChangesStore() && CanChange(s, act)
    ensures Inv(Changed(s, act))
  {
    match act
    case Store(pid, ok) => StoreStep(s, pid, ok);
    case Consume(pid, ok) => ConsumeKeepsInv(s, pid, ok);
    case Deliver(pid) => DeliverStep(s, pid);
    case RevokeReused(pid, ok) => RevokeReusedStep(s, pid, ok);
    case Discard(pid, ok) => DiscardStep(s, pid, ok);
    case Revoke(pid, ok) => RevokeStep(s, pid, ok);
  }

  /** A process that discards moves on. */
  lemma SkipKeepsInv(s: State, pid: nat, pc: PC)
    requires Inv(s) && pid in s.procs && s.procs[pid].pc.Discarding? && (pc.Discarding? || pc.Finished?)
    ensures Inv(Goto(s, pid, pc, s.procs[pid].verdict))
  {
    assert ProcOK(s, s.procs[pid]);
    MoveKeepsInv(s, pid, pc, s.procs[pid].verdict);
  }

  /** A process rejects the request, or finds it valid or the token reused. */
  lemma DecideKeepsInv(s: State, pid: nat, pc: PC, verdict: Verdict)
    requires Inv(s) && pid in s.procs && s.procs[pid].pc in {Loaded, Validated}
    requires (pc == Finished && verdict == Rejected) || (pc in {Revoking, Validated} && verdict == Undecided)
    ensures Inv(Goto(s, pid, pc, verdict))
  {
    assert ProcOK(s, s.procs[pid]);
    MoveKeepsInv(s, pid, pc, verdict);
  }

  lemma MintStep(cfg: Config, s: State, pid: nat)
    requires cfg.Valid() && Inv(s) && Enabled(cfg, s, Mint(pid))
    ensures Inv(Next(cfg, s, Mint(pid)))
  {
    var p := s.procs[pid];
    assert ProcOK(s, p);
    PlansBelong(cfg, p.token, p.job.a, Plans(cfg, p).value, s.now);
    MintKeepsInv(s, pid, Plans(cfg, p).value);
  }

  lemma StartIssueStep(cfg: Config, s: State, act: Action)
    requires act.StartIssue? && cfg.Valid() && Inv(s) && Enabled(cfg, s, act)
    ensures Inv(Next(cfg, s, act))
  {
    var plan := Planned(cfg, act.client, act.grant.audience, act.grant.scopes, act.withRefresh, act.hook).value;
    MintedBelong(cfg, act.client, act.grant, plan, IdentityOf(act.grant), act.grant.scopes, act.withRefresh, act.hook,
      act.access, act.refresh, s.now);
    StartIssueKeepsInv(s, act.pid, act.client, act.grant, act.access, act.refresh, plan);
  }

  lemma EnvironmentKeepsInv(cfg: Config, s: State, act: Action)
    requires act.Advance? || act.Expire? || act.IssueCode? || act.StartIssue?
    requires cfg.Valid() && Inv(s) && Enabled(cfg, s, act)
    ensures Inv(Next(cfg, s, act))
  {
    match act
    case Advance(now) => AdvanceKeepsInv(s, now);
    case Expire(hashes) => ExpireKeepsInv(s, hashes);
    case IssueCode(t) => IssueCodeKeepsInv(s, t);
    case StartIssue(_, _, _, _, _, _, _) => StartIssueStep(cfg, s, act);
  }

  lemma ControlKeepsInv(cfg: Config, s: State, act: Action)
    requires act.Reject? || act.DetectReuse? || act.Validate? || act.Finish?
    requires Inv(s) && Enabled(cfg, s, act)
    ensures Inv(Next(cfg, s, act))
  {
    match act
    case Reject(pid) => DecideKeepsInv(s, pid, Finished, Rejected);
    case DetectReuse(pid) => DecideKeepsInv(s, pid, Revoking, Undecided);
    case Validate(pid) => DecideKeepsInv(s, pid, Validated, Undecided);
    case Finish(pid) => SkipKeepsInv(s, pid, Finished);
  }

  lemma StepKeepsInv(cfg: Config, s: State, act: Action)
    requires cfg.Valid() && Inv(s) && Enabled(cfg, s, act)
    ensures Inv(Next(cfg, s, act))
  {
    if act.Advance? || act.Expire? || act.IssueCode? || act.StartIssue? {
      EnvironmentKeepsInv(cfg, s, act);
    } else if act.Reject? || act.DetectReuse? || act.Validate? || act.Finish? {
      ControlKeepsInv(cfg, s, act);
    } else if act.Load? {
      LoadKeepsInv(cfg, s, act.pid, act.a);
    } else if act.Mint? {
      MintStep(cfg, s, act.pid);
    } else if act.LoadRevocation? {
      LoadRevocationKeepsInv(cfg, s, act);
    } else {
      ChangeKeepsInv(s, act);
    }
  }

  lemma {:induction false} RunKeepsInv(cfg: Config, s: State, acts: seq<Action>)
    requires cfg.Valid() && Inv(s) && ValidRun(cfg, s, acts)
    ensures Inv(Exec(cfg, s, acts))
    decreases acts
  {
    if acts != [] {
      StepKeepsInv(cfg, s, acts[0]);
      RunKeepsInv(cfg, Next(cfg, s, acts[0]), acts[1..]);
    }
  }

  lemma InitialInv()
    ensures Inv(INITIAL)
  {
  }
}
