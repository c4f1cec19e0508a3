/** The token endpoint under concurrency (token.go, revoke.go).

    Any number of exchanges, direct issuances and revocations run at once. Each
    process advances by one Storage call or local decision at a time, every call
    may fail, the clock may advance between any two steps, and the store may drop
    expired tokens at any moment. The checks, the planning and the minting are
    those of module `Exchange`.

    `used`, `grants`, `disclosed`, `public`, `revoked`, `log` and the verdicts
    are history: no process reads them, except that only disclosed values can be
    presented and that random values are fresh. */
module Interleaving {
  import opened Basics
  import opened Records
  import opened Issuance
  import Memory
  import E = Exchange
  import A = AtomicGrants

  /** What all records of a grant agree on. `scopes` and `audience` are those of
      its code and refresh tokens; access tokens may have fewer. */
  datatype Identity = Identity(
    issuer: string,
    clientID: string,
    subject: string,
    authTime: Option<Time>,
    acr: string,
    amr: seq<string>,
    claims: Option<ClaimsRequest>,
    scopes: seq<string>,
    audience: seq<string>)

  function IdentityOf(t: Token): Identity {
    Identity(t.issuer, t.clientID, t.subject, t.authTime, t.acr, t.amr, t.claims, t.scopes, t.audience)
  }

  ghost predicate Narrowed(got: seq<string>, all: seq<string>) {
    SubsetOf(got, all) && (NoDup(all) ==> NoDup(got))
  }

  ghost predicate Belongs(t: Token, id: Identity) {
    if t.SingleUse() then IdentityOf(t) == id
    else
      && IdentityOf(t) == id.(scopes := t.scopes, audience := t.audience)
      && Narrowed(t.scopes, id.scopes)
      && Narrowed(t.audience, id.audience)
  }

  datatype PC = Loaded | Validated | Storing(stored: nat) | Revoking | Discarding(discarded: nat) | Finished

  /** How a process ended: its tokens were disclosed; it rejected the request
      before storing anything; it revoked the grant of a reused token; the token
      was gone when it was to be consumed; a storage call failed; it served a
      revocation request. */
  datatype Verdict = Undecided | Delivered | Rejected | Reused | Gone | Failed | Served

  /** What a process does, and for whom: an exchange for the client of the attempt
      at its issuer, an issuance for a client, or a revocation that a client asked an
      issuer for. */
  datatype Job =
    | Exchanging(a: E.Attempt)
    | Issuing(client: Client)
    | RevokingToken(issuer: string, clientID: string)

  /** `token` is the record the process loaded, or the grant it issues for. */
  datatype Proc = Proc(job: Job, token: Token, records: seq<Token>, pc: PC, verdict: Verdict)

  datatype State = State(
    now: Time,
    tokens: map<Hash, Token>,
    procs: map<nat, Proc>,
    used: set<Hash>,
    grants: map<string, Identity>,
    disclosed: set<Hash>,
    public: set<string>,
    revoked: set<string>,
    log: seq<A.Delivery>)

  const INITIAL := State(0, map[], map[], {}, map[], {}, {}, {}, [])

  datatype Action =
    | Advance(now: Time)
    | Expire(hashes: set<Hash>)
    | IssueCode(code: Token)
    | StartIssue(pid: nat, client: Client, grant: Token, withRefresh: bool, hook: Option<HookResult>,
                 access: Hash, refresh: Hash)
    | Load(pid: nat, a: E.Attempt)
    | Reject(pid: nat)
    | DetectReuse(pid: nat)
    | Validate(pid: nat)
    | Mint(pid: nat)
    | Store(pid: nat, ok: bool)
    | Consume(pid: nat, ok: bool)
    | Deliver(pid: nat)
    | RevokeReused(pid: nat, ok: bool)
    | Discard(pid: nat, ok: bool)
    | Finish(pid: nat)
    | LoadRevocation(pid: nat, hash: Hash, issuer: string, clientID: string)
    | Revoke(pid: nat, ok: bool)
  {
    /** Steps of a process that store, consume, disclose or delete tokens, as
        opposed to those that load and decide. */
    predicate ChangesStore() {
      Store? || Consume? || Deliver? || RevokeReused? || Discard? || Revoke?
    }
  }

  ghost predicate Fresh(s: State, access: Hash, refresh: Hash) {
    access !in s.used && refresh !in s.used && access != refresh
  }

  predicate At(s: State, pid: nat, pc: PC) {
    pid in s.procs && s.procs[pid].pc == pc
  }

  predicate ExchangingAt(s: State, pid: nat, pc: PC) {
    At(s, pid, pc) && s.procs[pid].job.Exchanging?
  }

  ghost function Plans(cfg: Config, p: Proc): Result<Plan, Error>
    requires p.job.Exchanging?
  {
    E.PlanAttempt(cfg, p.token, p.job.a)
  }

  predicate CanChange(s: State, act: Action) {
    match act
    case Store(pid, ok) =>
      pid in s.procs && s.procs[pid].pc.Storing? && s.procs[pid].pc.stored < |s.procs[pid].records|
    case Consume(pid, ok) =>
      pid in s.procs && ExchangingAt(s, pid, Storing(|s.procs[pid].records|))
    case Deliver(pid) =>
      pid in s.procs && At(s, pid, Storing(|s.procs[pid].records|)) && s.procs[pid].job.Issuing?
    case RevokeReused(pid, ok) => ExchangingAt(s, pid, Revoking)
    case Discard(pid, ok) =>
      pid in s.procs && s.procs[pid].pc.Discarding? && s.procs[pid].pc.discarded < |s.procs[pid].records|
    case Revoke(pid, ok) => At(s, pid, Loaded) && s.procs[pid].job.RevokingToken?
    case _ => false
  }

  ghost predicate Enabled(cfg: Config, s: State, act: Action) {
    match act
    case Advance(now) => s.now <= now
    case Expire(hashes) =>
      forall h :: h in hashes && h in s.tokens ==> Collectable(s.now, s.tokens[h].expiresAt)
    case IssueCode(t) =>
      t.kind == AuthorizationCode && t.consumedAt == None && t.hash !in s.used && t.grantID !in s.grants
    case StartIssue(pid, client, grant, withRefresh, hook, access, refresh) =>
      && pid !in s.procs && cfg.Registered(client, grant.clientID) && grant.grantID !in s.grants
      && SubsetOf(grant.scopes, client.scopes) && SubsetOf(grant.audience, client.audience)
      && Fresh(s, access, refresh)
      && Planned(cfg, client, grant.audience, grant.scopes, withRefresh, hook).Ok?
    case Load(pid, a) =>
      && pid !in s.procs && a.kind != AccessToken
      && a.value in s.disclosed && a.value in s.tokens
      && s.tokens[a.value].kind == a.kind && s.tokens[a.value].issuer == a.issuer
      && s.tokens[a.value].clientID == a.client.id
    case Reject(pid) =>
      ExchangingAt(s, pid, Validated) ||
      (ExchangingAt(s, pid, Loaded) &&
        (E.PreCheck(cfg, s.procs[pid].token, s.procs[pid].job.a).Some?
          || (s.procs[pid].token.consumedAt == None && !s.procs[pid].token.Unexpired(s.now))))
    case DetectReuse(pid) =>
      ExchangingAt(s, pid, Loaded) && s.procs[pid].token.consumedAt.Some?
      && E.PreCheck(cfg, s.procs[pid].token, s.procs[pid].job.a) == None
    case Validate(pid) =>
      ExchangingAt(s, pid, Loaded) && s.procs[pid].token.consumedAt == None && s.procs[pid].token.Unexpired(s.now)
      && E.PreCheck(cfg, s.procs[pid].token, s.procs[pid].job.a) == None
    case Mint(pid) =>
      ExchangingAt(s, pid, Validated) && Plans(cfg, s.procs[pid]).Ok?
      && cfg.Registered(s.procs[pid].job.a.client, s.procs[pid].job.a.client.id)
      && Fresh(s, s.procs[pid].job.a.access, s.procs[pid].job.a.refresh)
    case Finish(pid) =>
      pid in s.procs && At(s, pid, Discarding(|s.procs[pid].records|))
    case LoadRevocation(pid, h, issuer, clientID) =>
      && pid !in s.procs && h in s.disclosed && h in s.tokens
      && s.tokens[h].issuer == issuer && s.tokens[h].kind != AuthorizationCode && s.tokens[h].clientID == clientID
    case _ => CanChange(s, act)
  }

  function Goto(s: State, pid: nat, pc: PC, verdict: Verdict): State
    requires pid in s.procs
  {
    s.(procs := s.procs[pid := s.procs[pid].(pc := pc, verdict := verdict)])
  }

  function AfterIssueCode(s: State, t: Token): State {
    s.(tokens := s.tokens[t.hash := t], used := s.used + {t.hash}, grants := s.grants[t.grantID := IdentityOf(t)],
       disclosed := s.disclosed + {t.hash}, public := s.public + {t.grantID},
       log := s.log + [A.Delivery(t.grantID, None, Some(t.hash))])
  }

  function AfterStartIssue(s: State, pid: nat, client: Client, grant: Token, records: seq<Token>, access: Hash,
                           refresh: Hash): State {
    s.(procs := s.procs[pid := Proc(Issuing(client), grant, records, Storing(0), Undecided)],
       used := s.used + {access, refresh}, grants := s.grants[grant.grantID := IdentityOf(grant)])
  }

  function AfterMint(s: State, pid: nat, records: seq<Token>): State
    requires pid in s.procs && s.procs[pid].job.Exchanging?
  {
    s.(procs := s.procs[pid := s.procs[pid].(records := records, pc := Storing(0))],
       used := s.used + {s.procs[pid].job.a.access, s.procs[pid].job.a.refresh})
  }

  function AfterStore(s: State, pid: nat, ok: bool): State
    requires pid in s.procs && s.procs[pid].pc.Storing? && s.procs[pid].pc.stored < |s.procs[pid].records|
  {
    var p := s.procs[pid];
    var r := p.records[p.pc.stored];
    if ok && r.hash !in s.tokens
    then Goto(s, pid, Storing(p.pc.stored + 1), p.verdict).(tokens := s.tokens[r.hash := r])
    else Goto(s, pid, Discarding(0), Failed)
  }

  /** The tokens of the process become known, in one atomic step. */
  function Disclosing(s: State, pid: nat, parent: Option<Hash>): State
    requires pid in s.procs
  {
    var p := s.procs[pid];
    Goto(s, pid, Finished, Delivered).(
      disclosed := s.disclosed + A.Hashes(p.records), public := s.public + {p.token.grantID},
      log := s.log + [A.Delivery(p.token.grantID, parent, A.Credential(p.records))])
  }

  function AfterConsume(s: State, pid: nat, ok: bool): State
    requires pid in s.procs
  {
    var h := s.procs[pid].token.hash;
    if !ok then Goto(s, pid, Discarding(0), Failed)
    else if h !in s.tokens then Goto(s, pid, Discarding(0), Gone)
    else if s.tokens[h].consumedAt.Some? then Goto(s, pid, Revoking, Undecided)
    else Disclosing(s.(tokens := Memory.Consumed(s.tokens, h, s.now)), pid, Some(h))
  }

  function RevokingGrant(s: State, g: string): State {
    s.(tokens := Memory.WithoutGrant(s.tokens, g), revoked := s.revoked + {g})
  }

  function AfterRevokeReused(s: State, pid: nat, ok: bool): State
    requires pid in s.procs
  {
    if ok then Goto(RevokingGrant(s, s.procs[pid].token.grantID), pid, Discarding(0), Reused)
    else Goto(s, pid, Discarding(0), Failed)
  }

  function AfterDiscard(s: State, pid: nat, ok: bool): State
    requires pid in s.procs && s.procs[pid].pc.Discarding? && s.procs[pid].pc.discarded < |s.procs[pid].records|
  {
    var p := s.procs[pid];
    Goto(s, pid, Discarding(p.pc.discarded + 1), p.verdict).(
      tokens := if ok then s.tokens - {p.records[p.pc.discarded].hash} else s.tokens)
  }

  function AfterRevoke(s: State, pid: nat, ok: bool): State
    requires pid in s.procs
  {
    var t := s.procs[pid].token;
    var n := Goto(s, pid, Finished, if ok then Served else Failed);
    if !ok then n
    else if t.kind == RefreshToken then RevokingGrant(n, t.grantID)
    else n.(tokens := s.tokens - {t.hash})
  }

  function Changed(s: State, act: Action): State
    requires act.ChangesStore() && CanChange(s, act)
  {
    match act
    case Store(pid, ok) => AfterStore(s, pid, ok)
    case Consume(pid, ok) => AfterConsume(s, pid, ok)
    case Deliver(pid) => Disclosing(s, pid, None)
    case RevokeReused(pid, ok) => AfterRevokeReused(s, pid, ok)
    case Discard(pid, ok) => AfterDiscard(s, pid, ok)
    case Revoke(pid, ok) => AfterRevoke(s, pid, ok)
  }

  ghost function Next(cfg: Config, s: State, act: Action): State
    requires Enabled(cfg, s, act)
  {
    match act
    case Advance(now) => s.(now := now)
    case Expire(hashes) => s.(tokens := s.tokens - hashes)
    case IssueCode(t) => AfterIssueCode(s, t)
    case StartIssue(pid, client, grant, withRefresh, hook, access, refresh) =>
      var plan := Planned(cfg, client, grant.audience, grant.scopes, withRefresh, hook).value;
      AfterStartIssue(s, pid, client, grant, E.Minted(grant, plan, access, refresh, s.now), access, refresh)
    case Load(pid, a) =>
      s.(procs := s.procs[pid := Proc(Exchanging(a), s.tokens[a.value], [], Loaded, Undecided)])
    case Reject(pid) => Goto(s, pid, Finished, Rejected)
    case DetectReuse(pid) => Goto(s, pid, Revoking, Undecided)
    case Validate(pid) => Goto(s, pid, Validated, Undecided)
    case Mint(pid) =>
      var p := s.procs[pid];
      AfterMint(s, pid, E.Minted(p.token, Plans(cfg, p).value, p.job.a.access, p.job.a.refresh, s.now))
    case Finish(pid) => Goto(s, pid, Finished, s.procs[pid].verdict)
    case LoadRevocation(pid, h, issuer, clientID) =>
      s.(procs := s.procs[pid := Proc(RevokingToken(issuer, clientID), s.tokens[h], [], Loaded, Undecided)])
    case _ => Changed(s, act)
  }

  ghost predicate ValidRun(cfg: Config, s: State, acts: seq<Action>)
    decreases acts
  {
    acts == [] || (Enabled(cfg, s, acts[0]) && ValidRun(cfg, Next(cfg, s, acts[0]), acts[1..]))
  }

  ghost function Exec(cfg: Config, s: State, acts: seq<Action>): State
    requires ValidRun(cfg, s, acts)
    decreases acts
  {
    if acts == [] then s else Exec(cfg, Next(cfg, s, acts[0]), acts[1..])
  }

  // --- Invariant ------------------------------------------------------------

  ghost predicate RecordOK(s: State, g: string, r: Token) {
    r.hash in s.used && r.grantID == g && r.consumedAt == None && g in s.grants && Belongs(r, s.grants[g])
  }

  ghost predicate RecordsOK(s: State, g: string, rs: seq<Token>) {
    && |rs| <= 2
    && (forall i :: 0 <= i < |rs| ==> RecordOK(s, g, rs[i]))
    && (|rs| >= 1 ==> rs[0].kind == AccessToken)
    && (|rs| == 2 ==> rs[1].kind == RefreshToken && rs[0].hash != rs[1].hash)
  }

  ghost predicate Hidden(s: State, rs: seq<Token>) {
    forall i :: 0 <= i < |rs| ==> rs[i].hash !in s.disclosed
  }

  /** Whatever is stored under the hash of a record is that record. */
  ghost predicate Own(s: State, rs: seq<Token>) {
    forall i :: 0 <= i < |rs| && rs[i].hash in s.tokens ==> s.tokens[rs[i].hash] == rs[i]
  }

  /** The first `n` records are stored, except that expired ones may have been
      dropped, and all of them if the parent is gone (`alive` is false). */
  ghost predicate StoredSoFar(s: State, rs: seq<Token>, n: nat, alive: bool) {
    && 1 <= |rs| && n <= |rs|
    && (forall i :: n <= i < |rs| ==> rs[i].hash !in s.tokens)
    && (forall i :: 0 <= i < n && rs[i].hash !in s.tokens && alive ==> Collectable(s.now, rs[i].expiresAt))
  }

  /** The same record, which may have been consumed since. */
  predicate Same(later: Token, earlier: Token) {
    && later == earlier.(consumedAt := later.consumedAt)
    && (earlier.consumedAt.Some? ==> later.consumedAt.Some?)
  }

  /** A loaded credential only disappears with its grant or after its expiry. */
  ghost predicate LoadedOK(s: State, t: Token) {
    && t.hash in s.disclosed && t.grantID in s.public && t.grantID in s.grants && Belongs(t, s.grants[t.grantID])
    && (t.hash in s.tokens ==> Same(s.tokens[t.hash], t))
    && (t.hash !in s.tokens && t.SingleUse() ==> t.grantID in s.revoked || Collectable(s.now, t.expiresAt))
  }

  ghost predicate VerdictOK(s: State, p: Proc) {
    && (p.verdict == Delivered && p.token.hash in s.tokens ==> s.tokens[p.token.hash].consumedAt.Some?)
    && (p.verdict == Reused ==> p.token.grantID in s.revoked)
    && (p.verdict == Gone ==> p.token.grantID in s.revoked || Collectable(s.now, p.token.expiresAt))
  }

  ghost predicate ProcOK(s: State, p: Proc) {
    && RecordsOK(s, p.token.grantID, p.records)
    && (p.verdict != Delivered ==> Hidden(s, p.records) && Own(s, p.records))
    && (!p.pc.Discarding? && !p.pc.Finished? ==> p.verdict == Undecided)
    && (p.verdict == Delivered ==> p.pc == Finished)
    && match p.job
       case Exchanging(a) =>
         && p.token.SingleUse() && p.token.hash == a.value
         && p.token.issuer == a.issuer && p.token.clientID == a.client.id
         && LoadedOK(s, p.token) && VerdictOK(s, p)
         && (p.pc.Storing? ==> StoredSoFar(s, p.records, p.pc.stored, p.token.hash in s.tokens))
       case Issuing(client) =>
         && p.token.clientID == client.id
         && p.token.grantID in s.grants && s.grants[p.token.grantID] == IdentityOf(p.token)
         && (p.verdict != Delivered ==> p.token.grantID !in s.public)
         && (p.pc.Storing? ==> StoredSoFar(s, p.records, p.pc.stored, true))
       case RevokingToken(issuer, clientID) =>
         && p.token.issuer == issuer && p.token.clientID == clientID
         && p.token.kind != AuthorizationCode && LoadedOK(s, p.token) && p.records == [] && !p.pc.Storing?
  }

  /** Two processes never mint the same value, never issue for the same new
      grant, agree on a record both loaded, and never both deliver for the same
      credential. */
  ghost predicate Apart(p: Proc, q: Proc) {
    && (!p.job.Issuing? && !q.job.Issuing? && p.token.hash == q.token.hash
        ==> p.token.(consumedAt := None) == q.token.(consumedAt := None))
    && (forall i, j :: 0 <= i < |p.records| && 0 <= j < |q.records| ==> p.records[i].hash != q.records[j].hash)
    && (p.job.Issuing? && q.job.Issuing? ==> p.token.grantID != q.token.grantID)
    && (p.job.Exchanging? && q.job.Exchanging? && p.verdict == Delivered && q.verdict == Delivered
        ==> p.token.hash != q.token.hash)
  }

  ghost predicate TokenOK(s: State, h: Hash, t: Token) {
    && t.hash == h && h in s.used && t.grantID in s.grants && Belongs(t, s.grants[t.grantID])
    && (h !in s.disclosed ==> t.consumedAt == None)
    && (h in s.disclosed ==> t.grantID in s.public)
  }

  ghost predicate TokensOK(s: State) {
    forall h {:trigger TokenOK(s, h, s.tokens[h])} :: h in s.tokens ==> TokenOK(s, h, s.tokens[h])
  }

  ghost predicate GhostOK(s: State) {
    s.disclosed <= s.used && s.public <= s.grants.Keys && s.revoked <= s.public
  }

  ghost predicate ProcsOK(s: State) {
    forall x {:trigger ProcOK(s, s.procs[x])} :: x in s.procs ==> ProcOK(s, s.procs[x])
  }

  ghost predicate AllApart(s: State) {
    forall x, y {:trigger Apart(s.procs[x], s.procs[y])} ::
      x in s.procs && y in s.procs && x != y ==> Apart(s.procs[x], s.procs[y])
  }

  ghost predicate Inv(s: State) {
    TokensOK(s) && GhostOK(s) && ProcsOK(s) && AllApart(s)
  }

  /** What a step of others may do to a process. */
  ghost predicate Rely(s: State, s': State, p: Proc) {
    && s.now <= s'.now && s.used <= s'.used && s.disclosed <= s'.disclosed
    && s.public <= s'.public && s.revoked <= s'.revoked
    && (forall g :: g in s.grants ==> g in s'.grants && s'.grants[g] == s.grants[g])
    && (p.verdict != Delivered ==> StayOwn(s, s', p.records))
    && (p.pc.Storing? ==> forall i :: 0 <= i < |p.records| ==> RecordKept(s, s', p, p.records[i]))
    && (!p.job.Issuing? ==> TokenKept(s, s', p.token))
    && (p.job.Issuing? && p.verdict != Delivered && p.token.grantID in s'.public ==> p.token.grantID in s.public)
  }

  ghost predicate StayOwn(s: State, s': State, rs: seq<Token>) {
    && (forall i :: 0 <= i < |rs| && rs[i].hash in s'.disclosed ==> rs[i].hash in s.disclosed)
    && (forall i :: 0 <= i < |rs| && rs[i].hash in s'.tokens
          ==> rs[i].hash in s.tokens && s'.tokens[rs[i].hash] == s.tokens[rs[i].hash])
  }

  ghost predicate RecordKept(s: State, s': State, p: Proc, r: Token) {
    r.hash in s.tokens && r.hash !in s'.tokens
    ==> Collectable(s'.now, r.expiresAt) || (p.job.Exchanging? && p.token.hash !in s'.tokens)
  }

  ghost predicate TokenKept(s: State, s': State, t: Token) {
    && (t.hash in s'.tokens ==> t.hash in s.tokens && Same(s'.tokens[t.hash], s.tokens[t.hash]))
    && (t.hash in s.tokens && t.hash !in s'.tokens && t.SingleUse()
        ==> t.grantID in s'.revoked || Collectable(s'.now, t.expiresAt))
  }

  lemma StoredStays(s: State, s': State, p: Proc, alive: bool, alive': bool)
    requires p.pc.Storing? && p.verdict != Delivered && Rely(s, s', p) && StoredSoFar(s, p.records, p.pc.stored, alive)
    requires alive' ==> alive && (p.job.Exchanging? ==> p.token.hash in s'.tokens)
    ensures StoredSoFar(s', p.records, p.pc.stored, alive')
  {
    forall i | 0 <= i < |p.records| ensures RecordKept(s, s', p, p.records[i]) {}
  }

  lemma LoadedStays(s: State, s': State, p: Proc)
    requires !p.job.Issuing? && Rely(s, s', p) && LoadedOK(s, p.token)
    ensures LoadedOK(s', p.token) && (VerdictOK(s, p) ==> VerdictOK(s', p))
  {
  }

  lemma Stable(s: State, s': State, p: Proc)
    requires ProcOK(s, p) && Rely(s, s', p)
    ensures ProcOK(s', p)
  {
    assert RecordsOK(s', p.token.grantID, p.records);
    match p.job
    case Exchanging(a) =>
      LoadedStays(s, s', p);
      if p.pc.Storing? { StoredStays(s, s', p, p.token.hash in s.tokens, p.token.hash in s'.tokens); }
    case Issuing(_) =>
      if p.pc.Storing? { StoredStays(s, s', p, true, true); }
    case RevokingToken(_, _) =>
      LoadedStays(s, s', p);
  }

  lemma ApartSymmetric(p: Proc, q: Proc)
    requires Apart(p, q)
    ensures Apart(q, p)
  {
  }

  /** The invariant after a step of process `pid`. */
  lemma Assemble(s: State, s': State, pid: nat)
    requires Inv(s) && TokensOK(s') && GhostOK(s')
    requires s'.procs.Keys == s.procs.Keys + {pid} && ProcOK(s', s'.procs[pid])
    requires forall x :: x in s.procs && x != pid ==> s'.procs[x] == s.procs[x] && Rely(s, s', s.procs[x])
    requires forall x :: x in s.procs && x != pid ==> Apart(s'.procs[pid], s.procs[x])
    ensures Inv(s')
  {
    forall x | x in s'.procs ensures ProcOK(s', s'.procs[x]) {
      if x != pid {
        Stable(s, s', s.procs[x]);
      }
    }
    forall x, y | x in s'.procs && y in s'.procs && x != y ensures Apart(s'.procs[x], s'.procs[y]) {
      if y == pid {
        ApartSymmetric(s'.procs[pid], s.procs[x]);
      } else if x != pid {
        assert Apart(s.procs[x], s.procs[y]);
      }
    }
  }

  /** The invariant after a step of the environment. */
  lemma AssembleAll(s: State, s': State)
    requires Inv(s) && TokensOK(s') && GhostOK(s') && s'.procs == s.procs
    requires forall x :: x in s.procs ==> Rely(s, s', s.procs[x])
    ensures Inv(s')
  {
    forall x | x in s'.procs ensures ProcOK(s', s'.procs[x]) {
      Stable(s, s', s.procs[x]);
    }
  }

  // --- What the effects of a step guarantee to other processes ----------------

  ghost predicate SameHistory(s: State, s': State) {
    && s'.now == s.now && s'.used == s.used && s'.grants == s.grants && s'.disclosed == s.disclosed
    && s'.public == s.public && s'.revoked == s.revoked
  }

  lemma RelyIdle(s: State, s': State, p: Proc)
    requires s.now <= s'.now && s'.tokens == s.tokens && s.used <= s'.used
    requires forall g :: g in s.grants ==> g in s'.grants && s'.grants[g] == s.grants[g]
    requires s'.disclosed == s.disclosed && s'.public == s.public && s'.revoked == s.revoked
    ensures Rely(s, s', p)
  {
  }

  lemma RelyInsert(s: State, s': State, p: Proc, r: Token)
    requires ProcOK(s, p) && SameHistory(s, s') && s'.tokens == s.tokens[r.hash := r]
    requires r.hash !in s.tokens && r.hash !in s.disclosed
    requires forall i :: 0 <= i < |p.records| ==> p.records[i].hash != r.hash
    ensures Rely(s, s', p)
  {
  }

  lemma RelyRemove(s: State, s': State, p: Proc, h: Hash)
    requires ProcOK(s, p) && SameHistory(s, s') && s'.tokens == s.tokens - {h}
    requires p.pc.Storing? ==> forall i :: 0 <= i < |p.records| ==> p.records[i].hash != h
    requires !p.job.Issuing? && p.token.SingleUse() ==> p.token.hash != h
    ensures Rely(s, s', p)
  {
  }

  lemma RelyRevokeGrant(s: State, s': State, p: Proc, g: string)
    requires ProcOK(s, p) && TokensOK(s) && g in s.public
    requires SameHistory(s, s'.(revoked := s.revoked)) && s'.revoked == s.revoked + {g}
    requires s'.tokens == Memory.WithoutGrant(s.tokens, g)
    ensures Rely(s, s', p)
  {
    if p.pc.Storing? {
      forall i | 0 <= i < |p.records| ensures RecordKept(s, s', p, p.records[i]) {
        assert RecordOK(s, p.token.grantID, p.records[i]);
      }
    }
  }

  lemma ConsumedKeepsRecords(s: State, s': State, p: Proc, h: Hash, hashes: set<Hash>)
    requires ProcOK(s, p) && p.verdict != Delivered && h in s.disclosed
    requires s'.tokens == s.tokens || s'.tokens == Memory.Consumed(s.tokens, h, s.now)
    requires s'.disclosed == s.disclosed + hashes && forall i :: 0 <= i < |p.records| ==> p.records[i].hash !in hashes
    ensures StayOwn(s, s', p.records)
  {
  }

  lemma ConsumedKeepsTokens(s: State, s': State, t: Token, h: Hash)
    requires s'.tokens == s.tokens || s'.tokens == Memory.Consumed(s.tokens, h, s.now)
    ensures TokenKept(s, s', t)
  {
  }

  lemma RelyDisclose(s: State, s': State, p: Proc, q: Proc)
    requires ProcOK(s, p) && Apart(q, p)
    requires q.job.Issuing? || q.token.grantID in s.public
    requires q.job.Issuing? ==> s'.tokens == s.tokens
    requires q.job.Exchanging? ==>
      q.token.hash in s.disclosed && s'.tokens == Memory.Consumed(s.tokens, q.token.hash, s.now)
    requires SameHistory(s, s'.(disclosed := s.disclosed, public := s.public))
    requires s'.disclosed == s.disclosed + A.Hashes(q.records) && s'.public == s.public + {q.token.grantID}
    requires !q.job.RevokingToken?
    ensures Rely(s, s', p)
  {
    if p.verdict != Delivered {
      forall i | 0 <= i < |p.records| ensures p.records[i].hash !in A.Hashes(q.records) {}
      if q.job.Exchanging? {
        ConsumedKeepsRecords(s, s', p, q.token.hash, A.Hashes(q.records));
      }
    }
    ConsumedKeepsTokens(s, s', p.token, q.token.hash);
  }

  lemma RelyExpire(s: State, s': State, p: Proc, hashes: set<Hash>)
    requires ProcOK(s, p) && SameHistory(s, s') && s'.tokens == s.tokens - hashes
    requires forall h :: h in hashes && h in s.tokens ==> Collectable(s.now, s.tokens[h].expiresAt)
    ensures Rely(s, s', p)
  {
  }

  lemma RelyIssueCode(s: State, p: Proc, t: Token)
    requires ProcOK(s, p) && GhostOK(s) && t.hash !in s.used && t.grantID !in s.grants
    ensures Rely(s, AfterIssueCode(s, t), p)
  {
    forall i | 0 <= i < |p.records| ensures p.records[i].hash != t.hash {
      assert RecordOK(s, p.token.grantID, p.records[i]);
    }
  }
}
