/** What becomes of single processes along a run: how a race for one credential
    ends, that undelivered tokens are cleaned up, and which registration bounds a
    token. */
module Histories {
  import opened Basics
  import opened Records
  import opened Issuance
  import opened Interleaving
  import opened InterleavingProof
  import opened Guarantees
  import E = Exchange
  import A = AtomicGrants

  /** The process that a step belongs to. */
  function Mover(act: Action): Option<nat> {
    match act
    case Advance(_) => None
    case Expire(_) => None
    case IssueCode(_) => None
    case StartIssue(pid, _, _, _, _, _, _) => Some(pid)
    case Load(pid, _) => Some(pid)
    case Reject(pid) => Some(pid)
    case DetectReuse(pid) => Some(pid)
    case Validate(pid) => Some(pid)
    case Mint(pid) => Some(pid)
    case Store(pid, _) => Some(pid)
    case Consume(pid, _) => Some(pid)
    case Deliver(pid) => Some(pid)
    case RevokeReused(pid, _) => Some(pid)
    case Discard(pid, _) => Some(pid)
    case Finish(pid) => Some(pid)
    case LoadRevocation(pid, _, _, _) => Some(pid)
    case Revoke(pid, _) => Some(pid)
  }

  lemma OthersUntouched(cfg: Config, s: State, act: Action, x: nat)
    requires Enabled(cfg, s, act) && Mover(act) != Some(x)
    ensures x in Next(cfg, s, act).procs <==> x in s.procs
    ensures x in s.procs ==> Next(cfg, s, act).procs[x] == s.procs[x]
  {
  }

  lemma TimePasses(cfg: Config, s: State, act: Action)
    requires Enabled(cfg, s, act)
    ensures s.now <= Next(cfg, s, act).now
  {
  }

  // --- Races -----------------------------------------------------------------------------

  /** The step does not fail the process: no storage call of its exchange fails, and
      its plan is accepted, encoded and signed. */
  ghost predicate Spares(s: State, act: Action, pid: nat) {
    Mover(act) == Some(pid) ==>
      && ((act.Store? || act.Consume? || act.RevokeReused?) ==> act.ok)
      && (act.Reject? ==> !At(s, pid, Validated))
  }

  ghost predicate Unfailing(cfg: Config, s: State, acts: seq<Action>, pid: nat)
    requires ValidRun(cfg, s, acts)
    decreases acts
  {
    acts == [] || (Spares(s, acts[0], pid) && Unfailing(cfg, Next(cfg, s, acts[0]), acts[1..], pid))
  }

  /** A valid exchange of a token that was used before or has not expired. */
  ghost predicate ValidExchange(cfg: Config, s: State, p: Proc) {
    && p.job.Exchanging? && E.PreCheck(cfg, p.token, p.job.a) == None
    && (p.token.consumedAt.Some? || p.token.Unexpired(s.now))
  }

  /** As long as nothing fails it, such an exchange ends by delivering, by finding
      its token gone, or by revoking the grant; and only by that if the token it
      loaded had been used. */
  ghost predicate OnTrack(cfg: Config, s: State, pid: nat) {
    pid in s.procs && ValidExchange(cfg, s, s.procs[pid]) ==>
      var p := s.procs[pid];
      && p.verdict in {Undecided, Delivered, Reused, Gone}
      && (p.pc.Discarding? || p.pc.Finished? ==> p.verdict != Undecided)
      && (p.token.consumedAt.Some? ==> p.verdict in {Undecided, Reused} && p.pc != Validated && !p.pc.Storing?)
  }

  lemma ChangeKeepsTrack(cfg: Config, s: State, act: Action, pid: nat)
    requires Inv(s) && act.ChangesStore() && CanChange(s, act) && Mover(act) == Some(pid)
    requires Spares(s, act, pid) && OnTrack(cfg, s, pid)
    ensures OnTrack(cfg, Changed(s, act), pid)
  {
    assert ProcOK(s, s.procs[pid]);
  }

  lemma StepKeepsTrack(cfg: Config, s: State, act: Action, pid: nat)
    requires Inv(s) && Enabled(cfg, s, act) && Spares(s, act, pid) && OnTrack(cfg, s, pid)
    ensures OnTrack(cfg, Next(cfg, s, act), pid)
  {
    if Mover(act) != Some(pid) {
      OthersUntouched(cfg, s, act, pid);
      TimePasses(cfg, s, act);
    } else if act.ChangesStore() {
      ChangeKeepsTrack(cfg, s, act, pid);
    } else if pid in s.procs {
      assert ProcOK(s, s.procs[pid]);
    }
  }

  lemma {:induction false} RunKeepsTrack(cfg: Config, s: State, acts: seq<Action>, pid: nat)
    requires cfg.Valid() && Inv(s) && ValidRun(cfg, s, acts) && Unfailing(cfg, s, acts, pid) && OnTrack(cfg, s, pid)
    ensures OnTrack(cfg, Exec(cfg, s, acts), pid)
    decreases acts
  {
    if acts != [] {
      StepKeepsInv(cfg, s, acts[0]);
      StepKeepsTrack(cfg, s, acts[0], pid);
      RunKeepsTrack(cfg, Next(cfg, s, acts[0]), acts[1..], pid);
    }
  }

  /** Racing reuse: if two valid exchanges of one unexpired credential both finish
      and nothing fails them, at most one returns tokens, and then no disclosed
      token of the grant is active. */
  lemma RacingReuse(cfg: Config, acts: seq<Action>, x: nat, y: nat)
    requires cfg.Valid() && ValidRun(cfg, INITIAL, acts) && x != y
    requires Unfailing(cfg, INITIAL, acts, x) && Unfailing(cfg, INITIAL, acts, y)
    requires var s := Exec(cfg, INITIAL, acts);
      && At(s, x, Finished) && At(s, y, Finished)
      && ValidExchange(cfg, s, s.procs[x]) && ValidExchange(cfg, s, s.procs[y])
      && s.procs[x].token.hash == s.procs[y].token.hash && s.procs[x].token.Unexpired(s.now)
    ensures var s := Exec(cfg, INITIAL, acts);
      && !(s.procs[x].verdict == Delivered && s.procs[y].verdict == Delivered)
      && NothingActive(s, s.procs[x].token.grantID)
  {
    InitialInv();
    RunKeepsTrack(cfg, INITIAL, acts, x);
    RunKeepsTrack(cfg, INITIAL, acts, y);
    RacingVerdicts(cfg, Exec(cfg, INITIAL, acts), x, y);
  }

  /** Replay: a valid exchange of a code or refresh token that had been used, expired
      or not, leaves nothing of the grant active once it finished, if nothing fails it. */
  lemma ReplayKillsGrant(cfg: Config, acts: seq<Action>, x: nat)
    requires cfg.Valid() && ValidRun(cfg, INITIAL, acts) && Unfailing(cfg, INITIAL, acts, x)
    requires var s := Exec(cfg, INITIAL, acts);
      At(s, x, Finished) && ValidExchange(cfg, s, s.procs[x]) && s.procs[x].token.consumedAt.Some?
    ensures var s := Exec(cfg, INITIAL, acts);
      s.procs[x].verdict == Reused && NothingActive(s, s.procs[x].token.grantID)
  {
    InitialInv();
    RunKeepsTrack(cfg, INITIAL, acts, x);
    var s := Exec(cfg, INITIAL, acts);
    ReachableInv(cfg, s);
    assert ProcOK(s, s.procs[x]);
    RevokedInactive(s, s.procs[x].token.grantID);
  }

  // --- Cleaning up ----------------------------------------------------------------------------

  /** Only issuing a code and storing a minted record add a token. */
  lemma WhatAppears(cfg: Config, s: State, act: Action, h: Hash)
    requires Enabled(cfg, s, act)
    ensures h !in s.tokens && h in Next(cfg, s, act).tokens ==>
      || (act.IssueCode? && h == act.code.hash)
      || (act.Store? && var p := s.procs[act.pid];
          h == p.records[p.pc.stored].hash && Next(cfg, s, act).tokens[h] == p.records[p.pc.stored])
  {
  }

  predicate Removed(s: State, records: seq<Token>, n: nat)
    requires n <= |records|
  {
    forall i :: 0 <= i < n ==> records[i].hash !in s.tokens
  }

  /** A process that does not deliver has removed what it discarded so far. */
  ghost predicate Cleaned(s: State, p: Proc) {
    !p.job.RevokingToken? && p.verdict != Delivered ==>
      && (p.pc.Loaded? || p.pc.Validated? ==> p.records == [])
      && (p.pc.Discarding? ==> p.pc.discarded <= |p.records| && Removed(s, p.records, p.pc.discarded))
      && (p.pc.Finished? ==> Removed(s, p.records, |p.records|))
  }

  predicate DiscardsSucceed(acts: seq<Action>, pid: nat) {
    forall act :: act in acts && act.Discard? && act.pid == pid ==> act.ok
  }

  /** No step of another process brings back a record. */
  lemma OthersKeepClean(cfg: Config, s: State, act: Action, pid: nat)
    requires Inv(s) && Enabled(cfg, s, act) && Mover(act) != Some(pid) && pid in s.procs && Cleaned(s, s.procs[pid])
    ensures Cleaned(Next(cfg, s, act), s.procs[pid])
  {
    var p, s' := s.procs[pid], Next(cfg, s, act);
    assert ProcOK(s, p);
    if act.Store? { assert Apart(p, s.procs[act.pid]); }
    forall i | 0 <= i < |p.records| ensures p.records[i].hash in s'.tokens ==> p.records[i].hash in s.tokens {
      WhatAppears(cfg, s, act, p.records[i].hash);
      assert RecordOK(s, p.token.grantID, p.records[i]);
    }
  }

  lemma ChangeKeepsClean(s: State, act: Action, pid: nat)
    requires Inv(s) && act.ChangesStore() && CanChange(s, act) && Mover(act) == Some(pid)
    requires (act.Discard? ==> act.ok) && Cleaned(s, s.procs[pid])
    ensures Cleaned(Changed(s, act), Changed(s, act).procs[pid])
  {
    assert ProcOK(s, s.procs[pid]);
  }

  lemma StepKeepsClean(cfg: Config, s: State, act: Action, pid: nat)
    requires Inv(s) && Enabled(cfg, s, act) && DiscardsSucceed([act], pid)
    requires pid in s.procs ==> Cleaned(s, s.procs[pid])
    ensures pid in Next(cfg, s, act).procs ==> Cleaned(Next(cfg, s, act), Next(cfg, s, act).procs[pid])
  {
    if Mover(act) != Some(pid) {
      OthersUntouched(cfg, s, act, pid);
      if pid in s.procs { OthersKeepClean(cfg, s, act, pid); }
    } else if act.ChangesStore() {
      assert act in [act];
      ChangeKeepsClean(s, act, pid);
    } else if pid in s.procs {
      assert ProcOK(s, s.procs[pid]);
    }
  }

  lemma {:induction false} RunKeepsClean(cfg: Config, s: State, acts: seq<Action>, pid: nat)
    requires cfg.Valid() && Inv(s) && ValidRun(cfg, s, acts) && DiscardsSucceed(acts, pid)
    requires pid in s.procs ==> Cleaned(s, s.procs[pid])
    ensures pid in Exec(cfg, s, acts).procs ==> Cleaned(Exec(cfg, s, acts), Exec(cfg, s, acts).procs[pid])
    decreases acts
  {
    if acts != [] {
      StepKeepsInv(cfg, s, acts[0]);
      StepKeepsClean(cfg, s, acts[0], pid);
      RunKeepsClean(cfg, Next(cfg, s, acts[0]), acts[1..], pid);
    }
  }

  /** What was minted and not delivered is gone once the process finished, if its own
      discards succeeded, whatever else failed. */
  lemma UndeliveredTokensAreRemoved(cfg: Config, acts: seq<Action>, pid: nat)
    requires cfg.Valid() && ValidRun(cfg, INITIAL, acts) && DiscardsSucceed(acts, pid)
    requires var s := Exec(cfg, INITIAL, acts);
      At(s, pid, Finished) && !s.procs[pid].job.RevokingToken? && s.procs[pid].verdict != Delivered
    ensures var s := Exec(cfg, INITIAL, acts);
      forall i :: 0 <= i < |s.procs[pid].records| ==> s.procs[pid].records[i].hash !in s.tokens
  {
    InitialInv();
    RunKeepsClean(cfg, INITIAL, acts, pid);
  }

  // --- Registrations ------------------------------------------------------------------------------

  function ClientOf(p: Proc): Option<Client> {
    match p.job
    case Exchanging(a) => Some(a.client)
    case Issuing(client) => Some(client)
    case RevokingToken(_, _) => None
  }

  ghost predicate Covers(client: Client, t: Token) {
    SubsetOf(t.scopes, client.scopes) && SubsetOf(t.audience, client.audience)
  }

  /** Records are minted at most once, within the registration of that moment. */
  ghost predicate Bounded(p: Proc) {
    && (p.pc.Loaded? || p.pc.Validated? ==> p.records == [])
    && (p.records != [] ==> ClientOf(p).Some?)
    && (forall i :: 0 <= i < |p.records| ==> Covers(ClientOf(p).value, p.records[i]))
  }

  predicate MintedBy(s: State, pid: nat, t: Token) {
    pid in s.procs && s.procs[pid].records != [] && s.procs[pid].records[0] == t
  }

  ghost predicate Sourced(s: State) {
    && (forall pid :: pid in s.procs ==> Bounded(s.procs[pid]))
    && (forall h :: h in s.tokens && s.tokens[h].kind == AccessToken ==> exists pid :: MintedBy(s, pid, s.tokens[h]))
  }

  lemma PlanBounded(cfg: Config, client: Client, grant: Token, plan: Plan, scopes: seq<string>, withRefresh: bool,
                    hook: Option<HookResult>, access: Hash, refresh: Hash, now: Time)
    requires cfg.Valid() && cfg.Registered(client, client.id) && Covers(client, grant) && SubsetOf(scopes, grant.scopes)
    requires Planned(cfg, client, grant.audience, scopes, withRefresh, hook) == Ok(plan)
    ensures var rs := E.Minted(grant, plan, access, refresh, now);
      forall i :: 0 <= i < |rs| ==> Covers(client, rs[i])
  {
    AnyHookIsSafe(cfg, client, grant.audience, scopes, withRefresh, hook);
  }

  lemma MintedBounded(cfg: Config, s: State, act: Action)
    requires cfg.Valid() && Inv(s) && Enabled(cfg, s, act) && (act.Mint? || act.StartIssue?)
    ensures Bounded(Next(cfg, s, act).procs[act.pid])
  {
    if act.Mint? {
      var p := s.procs[act.pid];
      var a := p.job.a;
      assert ProcOK(s, p);
      PlanBounded(cfg, a.client, p.token, Plans(cfg, p).value, E.NarrowScopes(p.token.scopes, a.scopes).value,
        E.WithRefresh(a, p.token), a.hook, a.access, a.refresh, s.now);
    } else {
      var plan := Planned(cfg, act.client, act.grant.audience, act.grant.scopes, act.withRefresh, act.hook).value;
      PlanBounded(cfg, act.client, act.grant, plan, act.grant.scopes, act.withRefresh, act.hook, act.access,
        act.refresh, s.now);
    }
  }

  /** Except for minting, a step keeps the records of a process. */
  predicate Keeps(p: Proc, p': Proc) {
    && p'.job == p.job && p'.records == p.records
    && (p'.pc.Loaded? || p'.pc.Validated? ==> p.pc.Loaded? || p.pc.Validated?)
  }

  lemma ChangeKeepsRecords(s: State, act: Action, pid: nat)
    requires act.ChangesStore() && CanChange(s, act) && Mover(act) == Some(pid)
    ensures pid in Changed(s, act).procs && Keeps(s.procs[pid], Changed(s, act).procs[pid])
  {
  }

  lemma StepKeepsRecords(cfg: Config, s: State, act: Action, pid: nat)
    requires Enabled(cfg, s, act) && pid in s.procs && !(act.Mint? && act.pid == pid)
    ensures pid in Next(cfg, s, act).procs && Keeps(s.procs[pid], Next(cfg, s, act).procs[pid])
  {
    if Mover(act) != Some(pid) {
      OthersUntouched(cfg, s, act, pid);
    } else if act.ChangesStore() {
      ChangeKeepsRecords(s, act, pid);
    }
  }

  lemma NewProcs(cfg: Config, s: State, act: Action, pid: nat)
    requires Enabled(cfg, s, act) && pid !in s.procs && pid in Next(cfg, s, act).procs
    ensures act.StartIssue? || Next(cfg, s, act).procs[pid].records == []
    ensures act.StartIssue? ==> act.pid == pid
  {
  }

  lemma StepKeepsBounds(cfg: Config, s: State, act: Action, pid: nat)
    requires cfg.Valid() && Inv(s) && Enabled(cfg, s, act) && (pid in s.procs ==> Bounded(s.procs[pid]))
    requires pid in Next(cfg, s, act).procs
    ensures Bounded(Next(cfg, s, act).procs[pid])
  {
    if act.Mint? && act.pid == pid {
      MintedBounded(cfg, s, act);
    } else if pid in s.procs {
      StepKeepsRecords(cfg, s, act, pid);
    } else {
      NewProcs(cfg, s, act, pid);
      if act.StartIssue? { MintedBounded(cfg, s, act); }
    }
  }

  lemma StoreKeepsAccessTokens(s: State, pid: nat, ok: bool, h: Hash)
    requires Inv(s) && CanChange(s, Store(pid, ok)) && h in AfterStore(s, pid, ok).tokens
    requires AfterStore(s, pid, ok).tokens[h].kind == AccessToken
    ensures var t := AfterStore(s, pid, ok).tokens[h];
      if h in s.tokens then s.tokens[h] == t else MintedBy(s, pid, t)
  {
    assert ProcOK(s, s.procs[pid]);
  }

  lemma ConsumeKeepsAccessTokens(s: State, pid: nat, ok: bool, h: Hash)
    requires Inv(s) && CanChange(s, Consume(pid, ok)) && h in AfterConsume(s, pid, ok).tokens
    requires AfterConsume(s, pid, ok).tokens[h].kind == AccessToken
    ensures h in s.tokens && s.tokens[h] == AfterConsume(s, pid, ok).tokens[h]
  {
    assert ProcOK(s, s.procs[pid]);
    if h in s.tokens { assert TokenOK(s, h, s.tokens[h]); }
  }

  /** Access tokens are stored as they were minted, and never change. */
  lemma ChangeKeepsAccessTokens(s: State, act: Action, h: Hash)
    requires Inv(s) && act.ChangesStore() && CanChange(s, act)
    requires h in Changed(s, act).tokens && Changed(s, act).tokens[h].kind == AccessToken
    ensures var t := Changed(s, act).tokens[h];
      if h in s.tokens then s.tokens[h] == t else act.Store? && MintedBy(s, act.pid, t)
  {
    if act.Store? { StoreKeepsAccessTokens(s, act.pid, act.ok, h); }
    if act.Consume? { ConsumeKeepsAccessTokens(s, act.pid, act.ok, h); }
  }

  lemma AccessTokensUnchanged(cfg: Config, s: State, act: Action, h: Hash)
    requires Inv(s) && Enabled(cfg, s, act) && h in Next(cfg, s, act).tokens
      && Next(cfg, s, act).tokens[h].kind == AccessToken
    ensures var t := Next(cfg, s, act).tokens[h];
      if h in s.tokens then s.tokens[h] == t else act.Store? && MintedBy(s, act.pid, t)
  {
    if act.ChangesStore() { ChangeKeepsAccessTokens(s, act, h); }
  }

  /** A process that minted a token is remembered. */
  lemma StillMinted(cfg: Config, s: State, act: Action, pid: nat, t: Token)
    requires Enabled(cfg, s, act) && MintedBy(s, pid, t) && Bounded(s.procs[pid])
    ensures MintedBy(Next(cfg, s, act), pid, t)
  {
    StepKeepsRecords(cfg, s, act, pid);
  }

  lemma StepKeepsSources(cfg: Config, s: State, act: Action)
    requires cfg.Valid() && Inv(s) && Enabled(cfg, s, act) && Sourced(s)
    ensures Sourced(Next(cfg, s, act))
  {
    var s' := Next(cfg, s, act);
    forall pid | pid in s'.procs ensures Bounded(s'.procs[pid]) {
      StepKeepsBounds(cfg, s, act, pid);
    }
    forall h | h in s'.tokens && s'.tokens[h].kind == AccessToken
      ensures exists pid :: MintedBy(s', pid, s'.tokens[h])
    {
      AccessTokensUnchanged(cfg, s, act, h);
      var pid :| MintedBy(s, pid, s'.tokens[h]);
      StillMinted(cfg, s, act, pid, s'.tokens[h]);
    }
  }

  lemma {:induction false} RunKeepsSources(cfg: Config, s: State, acts: seq<Action>)
    requires cfg.Valid() && Inv(s) && ValidRun(cfg, s, acts) && Sourced(s)
    ensures Sourced(Exec(cfg, s, acts))
    decreases acts
  {
    if acts != [] {
      StepKeepsInv(cfg, s, acts[0]);
      StepKeepsSources(cfg, s, acts[0]);
      RunKeepsSources(cfg, Next(cfg, s, acts[0]), acts[1..]);
    }
  }

  /** Every stored access token comes from a process of this run, and its scopes and
      audience are within the registration that its client had at that exchange or
      issuance. */
  lemma AccessTokensWithinRegistration(cfg: Config, acts: seq<Action>, h: Hash) returns (pid: nat)
    requires cfg.Valid() && ValidRun(cfg, INITIAL, acts)
    requires var s := Exec(cfg, INITIAL, acts); h in s.tokens && s.tokens[h].kind == AccessToken
    ensures var s := Exec(cfg, INITIAL, acts);
      && MintedBy(s, pid, s.tokens[h]) && ClientOf(s.procs[pid]).Some?
      && ClientOf(s.procs[pid]).value.id == s.tokens[h].clientID
      && Covers(ClientOf(s.procs[pid]).value, s.tokens[h])
  {
    InitialInv();
    RunKeepsInv(cfg, INITIAL, acts);
    RunKeepsSources(cfg, INITIAL, acts);
    var s := Exec(cfg, INITIAL, acts);
    pid :| MintedBy(s, pid, s.tokens[h]);
    assert ProcOK(s, s.procs[pid]) && RecordOK(s, s.procs[pid].token.grantID, s.tokens[h]);
    assert TokenOK(s, h, s.tokens[h]);
  }
}
