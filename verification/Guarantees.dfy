/** What the token endpoint guarantees in every run, under every interleaving of
    exchanges, issuances, revocations, storage failures and collections. */
module Guarantees {
  import opened Basics
  import opened Records
  import opened Issuance
  import opened Interleaving
  import opened InterleavingProof
  import opened Refinement
  import A = AtomicGrants
  import E = Exchange

  ghost predicate Reachable(cfg: Config, s: State) {
    exists acts :: ValidRun(cfg, INITIAL, acts) && Exec(cfg, INITIAL, acts) == s
  }

  lemma ReachableInv(cfg: Config, s: State)
    requires cfg.Valid() && Reachable(cfg, s)
    ensures Inv(s) && A.Inv(Abs(s))
  {
    var acts :| ValidRun(cfg, INITIAL, acts) && Exec(cfg, INITIAL, acts) == s;
    InitialInv();
    RunKeepsInv(cfg, INITIAL, acts);
    RunRefines(cfg, INITIAL, acts);
    assert Abs(INITIAL) == A.INITIAL by { assert Live(INITIAL) == map[]; }
    A.RunKeepsInv(A.INITIAL, AbstractedRun(cfg, INITIAL, acts));
  }

  /** The step revokes the grant: a client revoked its refresh token, or reuse
      was detected. */
  ghost predicate Revokes(s: State, act: Action, g: string) {
    || (act.RevokeReused? && act.ok && ExchangingAt(s, act.pid, Revoking) && s.procs[act.pid].token.grantID == g)
    || (act.Revoke? && act.ok && At(s, act.pid, Loaded) && s.procs[act.pid].job.RevokingToken?
        && s.procs[act.pid].token.kind == RefreshToken && s.procs[act.pid].token.grantID == g)
  }

  ghost predicate NothingActive(s: State, g: string) {
    forall h :: h in s.tokens && h in s.disclosed ==> s.tokens[h].grantID != g
  }

  /** Revocation is final: whatever is in flight and whatever happens next, no
      disclosed token of the grant is ever stored again. */
  lemma RevocationIsFinal(cfg: Config, s: State, act: Action, g: string, more: seq<Action>)
    requires cfg.Valid() && Reachable(cfg, s) && Enabled(cfg, s, act) && Revokes(s, act, g)
    requires ValidRun(cfg, Next(cfg, s, act), more)
    ensures NothingActive(Exec(cfg, Next(cfg, s, act), more), g)
  {
    var s' := Next(cfg, s, act);
    ReachableInv(cfg, s);
    StepKeepsInv(cfg, s, act);
    StepRefines(cfg, s, act);
    A.StepKeepsInv(Abs(s), Abstracted(s, act));
    RunRefines(cfg, s', more);
    A.RunKeepsInv(Abs(s'), AbstractedRun(cfg, s', more));
    RevokedInactive(Exec(cfg, s', more), g);
  }

  lemma RevokedInactive(s: State, g: string)
    requires A.Inv(Abs(s)) && g in s.revoked
    ensures NothingActive(s, g)
  {
    forall h | h in s.tokens && h in s.disclosed ensures s.tokens[h].grantID != g {
      assert A.TokenOK(Abs(s), h, Live(s)[h]);
    }
  }

  /** Disclosures along a grant form a chain: whoever redeems a credential
      redeems the one disclosed last for that grant. */
  lemma DeliveriesFormChains(cfg: Config, s: State, j: nat) returns (i: nat)
    requires cfg.Valid() && Reachable(cfg, s) && j < |s.log| && s.log[j].parent.Some?
    ensures i < j && s.log[i].grant == s.log[j].grant && s.log[i].credential == s.log[j].parent
    ensures forall k :: i < k < j ==> s.log[k].grant != s.log[j].grant
  {
    ReachableInv(cfg, s);
    i := A.Predecessor(s.log, j);
  }

  predicate Succeeded(p: Proc) {
    p.job.Exchanging? && p.verdict == Delivered
  }

  /** Each code and each refresh token is redeemed at most once. */
  lemma RedeemedAtMostOnce(cfg: Config, s: State)
    requires cfg.Valid() && Reachable(cfg, s)
    ensures forall j, k :: 0 <= j < k < |s.log| && s.log[j].parent.Some? ==> s.log[j].parent != s.log[k].parent
    ensures forall x, y | x in s.procs && y in s.procs && x != y && Succeeded(s.procs[x]) && Succeeded(s.procs[y]) ::
      s.procs[x].token.hash != s.procs[y].token.hash
  {
    ReachableInv(cfg, s);
    forall j, k | 0 <= j < k < |s.log| && s.log[j].parent.Some? ensures s.log[j].parent != s.log[k].parent {
      A.RedeemedOnce(s.log, j, k);
    }
    forall x, y | x in s.procs && y in s.procs && x != y && Succeeded(s.procs[x]) && Succeeded(s.procs[y])
      ensures s.procs[x].token.hash != s.procs[y].token.hash
    {
      assert Apart(s.procs[x], s.procs[y]);
    }
  }

  /** A grant never has two stored, disclosed, unused credentials. */
  lemma OneUnusedCredentialPerGrant(cfg: Config, s: State, h: Hash, k: Hash)
    requires cfg.Valid() && Reachable(cfg, s)
    requires h in s.tokens && h in s.disclosed && s.tokens[h].SingleUse() && s.tokens[h].consumedAt == None
    requires k in s.tokens && k in s.disclosed && s.tokens[k].SingleUse() && s.tokens[k].consumedAt == None
    requires s.tokens[h].grantID == s.tokens[k].grantID
    ensures h == k
  {
    ReachableInv(cfg, s);
    A.OneUnusedCredential(Abs(s), h, k);
  }

  /** No credential is burned: a token that was consumed was redeemed for
      disclosed tokens. */
  lemma ConsumedMeansRedeemed(cfg: Config, s: State, h: Hash)
    requires cfg.Valid() && Reachable(cfg, s)
    requires h in s.tokens && s.tokens[h].consumedAt.Some?
    ensures h in s.disclosed && exists i :: 0 <= i < |s.log| && s.log[i].parent == Some(h)
  {
    ReachableInv(cfg, s);
    assert TokenOK(s, h, s.tokens[h]);
    assert A.TokenOK(Abs(s), h, Live(s)[h]);
  }

  /** When an exchange succeeds, every token it returns is in the store, unless
      it already expired. */
  lemma ReturnedTokensAreStored(cfg: Config, s: State, pid: nat, ok: bool, i: nat)
    requires cfg.Valid() && Reachable(cfg, s) && Enabled(cfg, s, Consume(pid, ok))
    requires Next(cfg, s, Consume(pid, ok)).procs[pid].verdict == Delivered && i < |s.procs[pid].records|
    ensures var s', r := Next(cfg, s, Consume(pid, ok)), s.procs[pid].records[i];
      r.hash in s'.disclosed && ((r.hash in s'.tokens && s'.tokens[r.hash] == r) || Collectable(s'.now, r.expiresAt))
  {
    ReachableInv(cfg, s);
    var p := s.procs[pid];
    assert ProcOK(s, p) && p.records[i] in p.records && LoadedOK(s, p.token);
  }

  /** The process consumed its token, or found it consumed or gone. */
  predicate RanToConsume(p: Proc) {
    p.job.Exchanging? && p.pc == Finished && p.verdict in {Delivered, Reused, Gone}
  }

  /** Of two exchanges of one unexpired token that both got so far, at most one
      returned tokens, and the grant is dead afterwards. */
  lemma RacingVerdicts(cfg: Config, s: State, x: nat, y: nat)
    requires cfg.Valid() && Reachable(cfg, s) && x in s.procs && y in s.procs && x != y
    requires RanToConsume(s.procs[x]) && RanToConsume(s.procs[y]) && s.procs[x].token.hash == s.procs[y].token.hash
    requires !Collectable(s.now, s.procs[x].token.expiresAt)
    ensures !(s.procs[x].verdict == Delivered && s.procs[y].verdict == Delivered)
    ensures NothingActive(s, s.procs[x].token.grantID)
  {
    ReachableInv(cfg, s);
    var p, q := s.procs[x], s.procs[y];
    assert Apart(p, q) && ProcOK(s, p) && ProcOK(s, q);
    assert p.token.grantID in s.revoked;
    RevokedInactive(s, p.token.grantID);
  }

  /** On whose behalf a process runs: the issuer and the client of the request. */
  function Actor(p: Proc): (string, string) {
    match p.job
    case Exchanging(a) => (a.issuer, a.client.id)
    case Issuing(client) => (p.token.issuer, client.id)
    case RevokingToken(issuer, clientID) => (issuer, clientID)
  }

  /** Isolation: a step consumes or deletes a token only if the token has expired
      or belongs to the issuer and client that sent the request. */
  lemma Isolation(cfg: Config, s: State, act: Action, h: Hash)
    requires cfg.Valid() && Reachable(cfg, s) && Enabled(cfg, s, act) && h in s.tokens
    requires h !in Next(cfg, s, act).tokens || Next(cfg, s, act).tokens[h] != s.tokens[h]
    ensures act.Expire? || act.ChangesStore()
    ensures act.Expire? ==> Collectable(s.now, s.tokens[h].expiresAt)
    ensures act.ChangesStore() ==>
      act.pid in s.procs && Actor(s.procs[act.pid]) == (s.tokens[h].issuer, s.tokens[h].clientID)
  {
    ReachableInv(cfg, s);
    assert TokenOK(s, h, s.tokens[h]);
    if act.ChangesStore() {
      ChangeIsolated(s, act, h);
    }
  }

  ghost predicate Belonging(s: State, pid: nat, t: Token)
    requires pid in s.procs
  {
    Actor(s.procs[pid]) == (t.issuer, t.clientID)
  }

  /** The tokens of a grant that a client presented a token of are its own. */
  lemma GrantIsolated(s: State, pid: nat, h: Hash)
    requires Inv(s) && pid in s.procs && !s.procs[pid].job.Issuing? && h in s.tokens
    requires s.tokens[h].grantID == s.procs[pid].token.grantID
    ensures Belonging(s, pid, s.tokens[h])
  {
    assert ProcOK(s, s.procs[pid]) && TokenOK(s, h, s.tokens[h]);
  }

  lemma ConsumeIsolated(s: State, pid: nat, ok: bool, h: Hash)
    requires Inv(s) && CanChange(s, Consume(pid, ok)) && h in s.tokens
    requires h !in AfterConsume(s, pid, ok).tokens || AfterConsume(s, pid, ok).tokens[h] != s.tokens[h]
    ensures Belonging(s, pid, s.tokens[h])
  {
    assert ProcOK(s, s.procs[pid]);
  }

  lemma DiscardIsolated(s: State, pid: nat, ok: bool, h: Hash)
    requires Inv(s) && CanChange(s, Discard(pid, ok)) && h in s.tokens && h !in AfterDiscard(s, pid, ok).tokens
    ensures Belonging(s, pid, s.tokens[h])
  {
    var p := s.procs[pid];
    assert ProcOK(s, p) && RecordOK(s, p.token.grantID, p.records[p.pc.discarded]) && TokenOK(s, h, s.tokens[h]);
  }

  lemma RevokeIsolated(s: State, pid: nat, ok: bool, h: Hash)
    requires Inv(s) && CanChange(s, Revoke(pid, ok)) && h in s.tokens && h !in AfterRevoke(s, pid, ok).tokens
    ensures Belonging(s, pid, s.tokens[h])
  {
    assert ProcOK(s, s.procs[pid]);
    if s.tokens[h].grantID == s.procs[pid].token.grantID { GrantIsolated(s, pid, h); }
  }

  lemma ChangeIsolated(s: State, act: Action, h: Hash)
    requires Inv(s) && act.ChangesStore() && CanChange(s, act) && h in s.tokens
    requires h !in Changed(s, act).tokens || Changed(s, act).tokens[h] != s.tokens[h]
    ensures Belonging(s, act.pid, s.tokens[h])
  {
    match act
    case Store(pid, ok) =>
    case Consume(pid, ok) => ConsumeIsolated(s, pid, ok, h);
    case Deliver(pid) =>
    case RevokeReused(pid, ok) => GrantIsolated(s, pid, h);
    case Discard(pid, ok) => DiscardIsolated(s, pid, ok, h);
    case Revoke(pid, ok) => RevokeIsolated(s, pid, ok, h);
  }

  /** Any two stored tokens of a grant agree on issuer, client, end-user and
      authentication; code and refresh tokens also on scopes and audience, of which
      access tokens have a part. */
  lemma GrantsAreHomogeneous(cfg: Config, s: State, h: Hash, k: Hash)
    requires cfg.Valid() && Reachable(cfg, s) && h in s.tokens && k in s.tokens
    requires s.tokens[h].grantID == s.tokens[k].grantID
    ensures var t, u := s.tokens[h], s.tokens[k];
      && t.issuer == u.issuer && t.clientID == u.clientID && t.subject == u.subject
      && t.authTime == u.authTime && t.acr == u.acr && t.amr == u.amr && t.claims == u.claims
      && (t.SingleUse() ==> Belongs(u, IdentityOf(t)))
  {
    ReachableInv(cfg, s);
    assert TokenOK(s, h, s.tokens[h]) && TokenOK(s, k, s.tokens[k]);
  }

  lemma StepKeepsGrants(cfg: Config, s: State, act: Action, g: string)
    requires Enabled(cfg, s, act) && g in s.grants
    ensures g in Next(cfg, s, act).grants && Next(cfg, s, act).grants[g] == s.grants[g]
  {
  }

  lemma {:induction false} RunKeepsGrants(cfg: Config, s: State, acts: seq<Action>, g: string)
    requires ValidRun(cfg, s, acts) && g in s.grants
    ensures g in Exec(cfg, s, acts).grants && Exec(cfg, s, acts).grants[g] == s.grants[g]
    decreases acts
  {
    if acts != [] {
      StepKeepsGrants(cfg, s, acts[0], g);
      RunKeepsGrants(cfg, Next(cfg, s, acts[0]), acts[1..], g);
    }
  }

  /** Refresh chains preserve the code: after any number of rotations, with any
      narrowing and any hooks, every token of a grant carries the identity of the
      code it started with, refresh tokens exactly its scopes and audience and
      access tokens a part of them, without duplicates if the code's have none. */
  lemma ChainsPreserveTheCode(cfg: Config, s: State, code: Token, more: seq<Action>, h: Hash)
    requires cfg.Valid() && Reachable(cfg, s) && Enabled(cfg, s, IssueCode(code))
    requires ValidRun(cfg, Next(cfg, s, IssueCode(code)), more)
    requires var s' := Exec(cfg, Next(cfg, s, IssueCode(code)), more);
      h in s'.tokens && s'.tokens[h].grantID == code.grantID
    ensures Belongs(Exec(cfg, Next(cfg, s, IssueCode(code)), more).tokens[h], IdentityOf(code))
  {
    ReachableInv(cfg, s);
    var s1 := Next(cfg, s, IssueCode(code));
    StepKeepsInv(cfg, s, IssueCode(code));
    RunKeepsGrants(cfg, s1, more, code.grantID);
    RunKeepsInv(cfg, s1, more);
    assert TokenOK(Exec(cfg, s1, more), h, Exec(cfg, s1, more).tokens[h]);
  }

  /** The scopes and audience of a new access token are within the registration
      of the client at that exchange. */
  lemma AccessWithinRegistration(cfg: Config, t: Token, a: E.Attempt, plan: Plan)
    requires cfg.Valid() && cfg.Registered(a.client, a.client.id) && E.PlanAttempt(cfg, t, a) == Ok(plan)
    ensures SubsetOf(plan.scopes, a.client.scopes) && SubsetOf(plan.audience, a.client.audience)
    ensures SubsetOf(t.scopes, a.client.scopes) && SubsetOf(t.audience, a.client.audience)
  {
    AnyHookIsSafe(cfg, a.client, t.audience, E.NarrowScopes(t.scopes, a.scopes).value, E.WithRefresh(a, t), a.hook);
  }
}
