/** Stored authorization requests under concurrency. Saving, pushing, redeeming,
    approving and denying interleave freely: loading a record, deleting it and
    storing the code are separate steps, any of them can fail, records expire and
    registrations change. The application calls the provider with any value it
    likes in the exported fields of a request; the unexported ones it can only copy
    from a request the provider returned. */
module RequestLifecycle {
  import opened Basics
  import opened Records
  import opened Memory
  import opened Reads
  import opened Authorization
  import opened Approvals
  import opened PushedRequests

  /** The unexported fields of a request the application holds. `origin` is the
      storage ID it was redeemed from, if any: it exists for the proof only. */
  datatype Marks = Marks(parsed: bool, redeemed: bool, pushedBy: string, origin: Option<string>)

  function MarksOf(req: AuthorizationRequest, origin: Option<string>): Marks {
    Marks(req.parsed, req.redeemed, req.pushedBy, origin)
  }

  /** A stored request, with the origin of what was saved and the client that
      authenticated to push it. */
  datatype Entry = Entry(record: AuthorizationRequest, origin: Option<string>, pusher: Option<string>)

  datatype Proc =
    | Loaded(current: AuthorizationRequest, binding: string, decided: Decided)
    | Completed(decided: Decided)
    | Redeeming(issuer: string, record: AuthorizationRequest)
    | Ended

  /** What an approval (with a code) or a denial decided: for which registration, on a
      request that names which client and descends from which redeemed one. */
  datatype Decided = Decided(client: Client, named: string, origin: Option<string>, code: Option<Token>)

  datatype Completion = Completion(id: string, current: AuthorizationRequest, binding: string)

  /** A code that was issued, with the client its request named. */
  datatype Issue = Issue(client: Client, named: string, origin: Option<string>, code: Token)

  datatype State = State(
    now: Time,
    requests: map<string, Entry>,
    held: set<Marks>,
    procs: map<nat, Proc>,
    created: map<string, Entry>,
    completions: seq<Completion>,
    redemptions: seq<string>,
    codes: seq<Issue>)

  datatype Action =
    | Tick(d: Duration)
    | Collect(ids: set<string>)
    | Parse(marks: Marks)
    | Push(req: AuthorizationRequest, origin: Option<string>, issuer: string, registry: map<string, Client>,
           ref: string)
    | Save(req: AuthorizationRequest, origin: Option<string>, issuer: string, registry: map<string, Client>,
           ref: string, cookie: Option<Hash>)
    | Show(issuer: string, id: string, binding: string)
    | Begin(p: nat, req: AuthorizationRequest, origin: Option<string>, issuer: string, registry: map<string, Client>,
            binding: string, approval: Option<Approval>, hash: Hash, grantID: string)
    | Complete(p: nat)
    | Issuing(p: nat)
    | LoadPushed(p: nat, issuer: string, clientID: string, uri: string)
    | Redeem(p: nat, registry: map<string, Client>)
    | Abort(p: nat)

  /** The requests of the storage. */
  function View(s: State): Contents {
    Contents(map id | id in s.requests :: s.requests[id].record, map[], map[], None)
  }

  const INITIAL := State(0, map[], {Marks(false, false, "", None)}, map[], map[], [], [], [])

  // --- Steps ---------------------------------------------------------------------------

  /** The code that Approve decides on, before it is stored. */
  ghost function Decision(cfg: Config, s: State, a: Action): Result<Option<Token>, Failure>
    requires a.Begin?
  {
    var done := Completable(cfg, View(s), a.issuer, a.registry, a.binding, a.req, a.approval.Some?, s.now);
    if done.Err? then Err(done.error)
    else if a.approval == None then Ok(None)
    else
      match CodeFor(cfg, a.issuer, done.value.0, done.value.1, a.approval.value, s.now, a.hash, a.grantID)
      case Err(e) => Err(e)
      case Ok(t) => Ok(Some(t))
  }

  ghost predicate Enabled(cfg: Config, s: State, a: Action) {
    match a
    case Tick(d) => d >= 0
    case Collect(ids) =>
      forall id :: id in ids && id in s.requests ==> Collectable(s.now, s.requests[id].record.expiresAt)
    case Parse(m) =>
      m == Marks(true, false, "", None) || (cfg.par != Disabled && m == Marks(false, false, m.pushedBy, None))
    case Push(req, origin, issuer, registry, ref) =>
      && MarksOf(req, origin) in s.held && MayPush(cfg, issuer, registry, req)
      && Ref(ref) && StorageID(ref) !in s.created
    case Save(req, origin, issuer, registry, ref, cookie) =>
      && MarksOf(req, origin) in s.held && MaySave(cfg, issuer, registry, req)
      && Ref(ref) && ref !in s.created
    case Show(issuer, id, binding) => LoadPending(View(s), issuer, id, binding, s.now).Some?
    case Begin(p, req, origin, _, _, _, _, _, _) =>
      && p !in s.procs && MarksOf(req, origin) in s.held && Decision(cfg, s, a).Ok?
    case Complete(p) => p in s.procs && s.procs[p].Loaded? && s.procs[p].current.id in s.requests
    case Issuing(p) => p in s.procs && s.procs[p].Completed?
    case LoadPushed(p, issuer, clientID, uri) =>
      && p !in s.procs && cfg.par != Disabled && clientID != ""
      && Redeemable(View(s), issuer, clientID, uri, s.now).Some?
    case Redeem(p, _) => p in s.procs && s.procs[p].Redeeming? && s.procs[p].record.id in s.requests
    case Abort(p) => p in s.procs
  }

  ghost function Begun(cfg: Config, s: State, a: Action): Proc
    requires a.Begin? && Enabled(cfg, s, a)
  {
    var done := Completable(cfg, View(s), a.issuer, a.registry, a.binding, a.req, a.approval.Some?, s.now).value;
    var code := Decision(cfg, s, a).value;
    if a.req.id == "" then Completed(Decided(done.0, a.req.clientID, a.origin, code))
    else Loaded(done.1, a.binding, Decided(done.0, a.req.clientID, s.requests[a.req.id].origin, code))
  }

  /** The code as it is stored when its record is built. */
  function Stamped(cfg: Config, t: Token, now: Time): Token {
    t.(createdAt := now, expiresAt := now + cfg.lifetimes.authorizationCode)
  }

  ghost function Next(cfg: Config, s: State, a: Action): State
    requires Enabled(cfg, s, a)
  {
    match a
    case Tick(d) => s.(now := s.now + d)
    case Collect(ids) => s.(requests := s.requests - ids)
    case Parse(m) => s.(held := s.held + {m})
    case Push(req, _, _, registry, ref) =>
      var record := PushedRecord(cfg, registry[req.clientID], req, ref, s.now);
      var e := Entry(record, None, Some(req.pushedBy));
      s.(requests := s.requests[record.id := e], created := s.created[record.id := e])
    case Save(req, origin, _, registry, ref, cookie) =>
      var record := SavedRecord(cfg, registry[req.clientID], req, ref, cookie);
      var e := Entry(record, origin, None);
      s.(requests := s.requests[ref := e], created := s.created[ref := e],
         held := s.held + {MarksOf(record, origin)})
    case Show(_, id, _) => s.(held := s.held + {MarksOf(s.requests[id].record, s.requests[id].origin)})
    case Begin(p, _, _, _, _, _, _, _, _) => s.(procs := s.procs[p := Begun(cfg, s, a)])
    case Complete(p) =>
      var q := s.procs[p];
      s.(requests := s.requests - {q.current.id}, procs := s.procs[p := Completed(q.decided)],
         completions := s.completions + [Completion(q.current.id, q.current, q.binding)])
    case Issuing(p) =>
      var d := s.procs[p].decided;
      s.(procs := s.procs[p := Ended],
         codes := if d.code == None then s.codes
                  else s.codes + [Issue(d.client, d.named, d.origin, Stamped(cfg, d.code.value, s.now))])
    case LoadPushed(p, issuer, clientID, uri) =>
      s.(procs := s.procs[p := Redeeming(issuer, Redeemable(View(s), issuer, clientID, uri, s.now).value)])
    case Redeem(p, registry) =>
      var issuer, r := s.procs[p].issuer, s.procs[p].record;
      s.(requests := s.requests - {r.id}, procs := s.procs[p := Ended], redemptions := s.redemptions + [r.id],
         held := if r.clientID in registry && CheckRequest(cfg, issuer, registry[r.clientID], r)
                 then s.held + {MarksOf(RedeemedRequest(cfg, r, s.now), Some(r.id))} else s.held)
    case Abort(p) => s.(procs := s.procs[p := Ended])
  }

  ghost predicate ValidRun(cfg: Config, s: State, run: seq<Action>)
    decreases |run|
  {
    run == [] || (Enabled(cfg, s, run[0]) && ValidRun(cfg, Next(cfg, s, run[0]), run[1..]))
  }

  ghost function Exec(cfg: Config, s: State, run: seq<Action>): State
    requires ValidRun(cfg, s, run)
    decreases |run|
  {
    if run == [] then s else Exec(cfg, Next(cfg, s, run[0]), run[1..])
  }

  // --- The invariant ---------------------------------------------------------------------

  /** What is stored is what was created, under its own ID and without the marks
      of a request that can be completed unsaved or pushed. */
  ghost predicate StoreOK(s: State) {
    && (forall id {:trigger s.requests[id]} :: id in s.requests ==> id in s.created && s.requests[id] == s.created[id])
    && (forall id {:trigger s.created[id]} :: id in s.created ==> EntryOK(s, id, s.created[id]))
  }

  ghost predicate EntryOK(s: State, id: string, e: Entry) {
    && e.record.id == id != "" && !e.record.parsed && e.record.pushedBy == ""
    && (!HasPrefix(id, PUSHED_PREFIX) && (e.record.pushed || e.record.redeemed) ==> Redeemed(s, e.origin))
    && (HasPrefix(id, PUSHED_PREFIX) ==> e.pusher == Some(e.record.clientID))
    && OriginOK(s, e.origin)
  }

  ghost predicate Redeemed(s: State, origin: Option<string>) { origin.Some? && origin.value in s.redemptions }

  /** Only redeeming creates an origin. */
  ghost predicate OriginOK(s: State, origin: Option<string>) { origin.Some? ==> Redeemed(s, origin) }

  ghost predicate HeldOK(s: State) {
    forall m :: m in s.held ==>
      (m.redeemed ==> Redeemed(s, m.origin)) && OriginOK(s, m.origin) && (m.pushedBy != "" ==> !m.parsed)
  }

  /** A request is the stored one with the claims filtered again. */
  predicate Refiltered(current: AuthorizationRequest, record: AuthorizationRequest) {
    current == record.(claims := current.claims)
  }

  ghost predicate CompletionOK(s: State, id: string, current: AuthorizationRequest, binding: string) {
    && id in s.created && !HasPrefix(id, PUSHED_PREFIX) && Refiltered(current, s.created[id].record)
    && (current.bindingHash == "" || current.bindingHash == binding)
  }

  ghost predicate IssueOK(cfg: Config, s: State, i: Issue) {
    && SafeCode(cfg, i.code.issuer, i.client, i.code) && i.code.clientID == i.named
    && (cfg.ParRequired(i.client) ==> Redeemed(s, i.origin))
    && OriginOK(s, i.origin)
  }

  ghost predicate DecidedOK(cfg: Config, s: State, d: Decided) {
    d.code.Some? ==> IssueOK(cfg, s, Issue(d.client, d.named, d.origin, d.code.value))
  }

  ghost predicate ProcOK(cfg: Config, s: State, q: Proc) {
    match q
    case Loaded(current, binding, decided) =>
      CompletionOK(s, current.id, current, binding) && current.clientID == decided.named && DecidedOK(cfg, s, decided)
    case Completed(decided) => DecidedOK(cfg, s, decided)
    case Redeeming(_, record) =>
      HasPrefix(record.id, PUSHED_PREFIX) && record.id in s.created && record == s.created[record.id].record
    case Ended => true
  }

  ghost predicate LogsOK(s: State) {
    && (forall i {:trigger s.completions[i]} :: 0 <= i < |s.completions| ==>
          CompletionOK(s, s.completions[i].id, s.completions[i].current, s.completions[i].binding)
          && s.completions[i].id !in s.requests)
    && (forall i, j :: 0 <= i < j < |s.completions| ==> s.completions[i].id != s.completions[j].id)
    && (forall r :: r in s.redemptions ==> HasPrefix(r, PUSHED_PREFIX) && r in s.created && r !in s.requests)
    && NoDup(s.redemptions)
  }

  ghost predicate CodesOK(cfg: Config, s: State) {
    forall i {:trigger s.codes[i]} :: 0 <= i < |s.codes| ==> IssueOK(cfg, s, s.codes[i])
  }

  ghost predicate Inv(cfg: Config, s: State) {
    && StoreOK(s) && HeldOK(s) && LogsOK(s) && CodesOK(cfg, s)
    && (forall p :: p in s.procs ==> ProcOK(cfg, s, s.procs[p]))
  }

  // --- Every step keeps it ------------------------------------------------------------------

  /** What never changes or shrinks. */
  ghost predicate Grows(s: State, s': State) {
    && (forall id :: id in s.created ==> id in s'.created && s'.created[id] == s.created[id])
    && (forall r :: r in s.redemptions ==> r in s'.redemptions)
    && s.completions <= s'.completions
  }

  lemma StepGrows(cfg: Config, s: State, a: Action)
    requires Enabled(cfg, s, a)
    ensures Grows(s, Next(cfg, s, a))
  {
  }

  lemma ProcStable(cfg: Config, s: State, s': State, q: Proc)
    requires Grows(s, s') && ProcOK(cfg, s, q)
    ensures ProcOK(cfg, s', q)
  {
  }

  lemma BegunOK(cfg: Config, s: State, a: Action)
    requires a.Begin? && Inv(cfg, s) && Enabled(cfg, s, a)
    ensures ProcOK(cfg, s, Begun(cfg, s, a))
  {
    var done := Completable(cfg, View(s), a.issuer, a.registry, a.binding, a.req, a.approval.Some?, s.now);
    var current := Current(View(s), a.issuer, a.binding, a.req, s.now).value;
    assert a.req.id != "" ==> a.req.id in s.requests && current == s.requests[a.req.id].record;
    if a.approval.Some? {
      AnyEditIsSafe(cfg, View(s), a.issuer, a.registry, a.binding, a.req, a.approval.value, s.now, a.hash, a.grantID);
    }
  }

  lemma InsertKeepsStore(s: State, s': State, e: Entry)
    requires StoreOK(s) && EntryOK(s, e.record.id, e) && e.record.id !in s.created
    requires s'.requests == s.requests[e.record.id := e] && s'.created == s.created[e.record.id := e]
    requires s'.redemptions == s.redemptions
    ensures StoreOK(s')
  {
  }

  lemma InsertKeepsLogs(s: State, s': State, e: Entry)
    requires LogsOK(s) && e.record.id !in s.created
    requires s'.requests == s.requests[e.record.id := e] && s'.created == s.created[e.record.id := e]
    requires s'.completions == s.completions && s'.redemptions == s.redemptions
    ensures LogsOK(s')
  {
  }

  /** A record is created under a new ID. */
  lemma InsertKeeps(s: State, s': State, e: Entry)
    requires StoreOK(s) && LogsOK(s) && EntryOK(s, e.record.id, e) && e.record.id !in s.created
    requires s'.requests == s.requests[e.record.id := e] && s'.created == s.created[e.record.id := e]
    requires s'.completions == s.completions && s'.redemptions == s.redemptions
    ensures StoreOK(s') && LogsOK(s')
  {
    InsertKeepsStore(s, s', e);
    InsertKeepsLogs(s, s', e);
  }

  /** Records disappear, for whatever reason. */
  lemma RemoveKeeps(s: State, s': State, ids: set<string>)
    requires StoreOK(s) && LogsOK(s)
    requires s'.requests == s.requests - ids && s'.created == s.created
    requires s'.completions == s.completions && s'.redemptions == s.redemptions
    ensures StoreOK(s') && LogsOK(s')
  {
  }

  lemma LogCompletion(s: State, s': State, c: Completion)
    requires LogsOK(s) && c.id !in s.requests && CompletionOK(s, c.id, c.current, c.binding)
    requires forall i :: 0 <= i < |s.completions| ==> s.completions[i].id != c.id
    requires s'.requests == s.requests && s'.created == s.created
    requires s'.completions == s.completions + [c] && s'.redemptions == s.redemptions
    ensures LogsOK(s')
  {
  }

  lemma CompleteKeeps(s: State, s': State, c: Completion)
    requires StoreOK(s) && LogsOK(s) && c.id in s.requests && CompletionOK(s, c.id, c.current, c.binding)
    requires s'.requests == s.requests - {c.id} && s'.created == s.created
    requires s'.completions == s.completions + [c] && s'.redemptions == s.redemptions
    ensures StoreOK(s') && LogsOK(s')
  {
    var s1 := s.(requests := s.requests - {c.id});
    RemoveKeeps(s, s1, {c.id});
    LogCompletion(s1, s', c);
  }

  lemma RedeemKeeps(s: State, s': State, id: string)
    requires StoreOK(s) && LogsOK(s) && id in s.requests && HasPrefix(id, PUSHED_PREFIX)
    requires s'.requests == s.requests - {id} && s'.created == s.created
    requires s'.completions == s.completions && s'.redemptions == s.redemptions + [id]
    ensures StoreOK(s') && LogsOK(s')
  {
  }

  lemma PushKept(cfg: Config, s: State, a: Action)
    requires Inv(cfg, s) && Enabled(cfg, s, a) && a.Push?
    ensures StoreOK(Next(cfg, s, a)) && LogsOK(Next(cfg, s, a))
  {
    assert StorageID(a.ref)[..|PUSHED_PREFIX|] == PUSHED_PREFIX;
    InsertKeeps(s, Next(cfg, s, a),
      Entry(PushedRecord(cfg, a.registry[a.req.clientID], a.req, a.ref, s.now), None, Some(a.req.pushedBy)));
  }

  /** What is saved keeps the marks of the request it was made from. */
  lemma SavedMarks(cfg: Config, s: State, a: Action)
    requires HeldOK(s) && a.Save? && Enabled(cfg, s, a)
    ensures var record := SavedRecord(cfg, a.registry[a.req.clientID], a.req, a.ref, a.cookie);
      && OriginOK(s, a.origin) && !record.parsed && record.pushedBy == ""
      && (record.pushed || record.redeemed ==> Redeemed(s, a.origin))
  {
  }

  lemma SaveKept(cfg: Config, s: State, a: Action)
    requires StoreOK(s) && LogsOK(s) && HeldOK(s) && Enabled(cfg, s, a) && a.Save?
    ensures StoreOK(Next(cfg, s, a)) && LogsOK(Next(cfg, s, a))
  {
    RefIsNotPushed(a.ref);
    SavedMarks(cfg, s, a);
    InsertKeeps(s, Next(cfg, s, a),
      Entry(SavedRecord(cfg, a.registry[a.req.clientID], a.req, a.ref, a.cookie), a.origin, None));
  }

  lemma CompleteKept(cfg: Config, s: State, a: Action)
    requires Inv(cfg, s) && Enabled(cfg, s, a) && a.Complete?
    ensures StoreOK(Next(cfg, s, a)) && LogsOK(Next(cfg, s, a))
  {
    var q := s.procs[a.p];
    assert ProcOK(cfg, s, q);
    CompleteKeeps(s, Next(cfg, s, a), Completion(q.current.id, q.current, q.binding));
  }

  lemma RedeemKept(cfg: Config, s: State, a: Action)
    requires Inv(cfg, s) && Enabled(cfg, s, a) && a.Redeem?
    ensures StoreOK(Next(cfg, s, a)) && LogsOK(Next(cfg, s, a)) && HeldOK(Next(cfg, s, a))
  {
    var q := s.procs[a.p];
    assert ProcOK(cfg, s, q);
    RedeemKeeps(s, Next(cfg, s, a), q.record.id);
    assert EntryOK(s, q.record.id, s.created[q.record.id]);
  }

  lemma RestKept(cfg: Config, s: State, a: Action)
    requires StoreOK(s) && LogsOK(s) && Enabled(cfg, s, a)
    requires !a.Push? && !a.Save? && !a.Complete? && !a.Redeem?
    ensures StoreOK(Next(cfg, s, a)) && LogsOK(Next(cfg, s, a))
  {
    RemoveKeeps(s, Next(cfg, s, a), if a.Collect? then a.ids else {});
  }

  /** The created records and the logs stay consistent. */
  lemma StoreKept(cfg: Config, s: State, a: Action)
    requires Inv(cfg, s) && Enabled(cfg, s, a)
    ensures StoreOK(Next(cfg, s, a)) && LogsOK(Next(cfg, s, a))
  {
    if a.Push? { PushKept(cfg, s, a); }
    else if a.Save? { SaveKept(cfg, s, a); }
    else if a.Complete? { CompleteKept(cfg, s, a); }
    else if a.Redeem? { RedeemKept(cfg, s, a); }
    else { RestKept(cfg, s, a); }
  }

  lemma IssueStable(cfg: Config, s: State, s': State, i: Issue, now: Time)
    requires Grows(s, s') && IssueOK(cfg, s, i)
    ensures IssueOK(cfg, s', i) && IssueOK(cfg, s', i.(code := Stamped(cfg, i.code, now)))
  {
  }

  /** Only codes that Begin decided on are issued. */
  lemma CodesKept(cfg: Config, s: State, a: Action)
    requires Inv(cfg, s) && Enabled(cfg, s, a)
    ensures CodesOK(cfg, Next(cfg, s, a))
  {
    var s' := Next(cfg, s, a);
    StepGrows(cfg, s, a);
    forall i | 0 <= i < |s'.codes| ensures IssueOK(cfg, s', s'.codes[i]) {
      if i < |s.codes| {
        assert s'.codes[i] == s.codes[i];
        IssueStable(cfg, s, s', s.codes[i], s.now);
      } else {
        assert a.Issuing? && ProcOK(cfg, s, s.procs[a.p]);
        var d := s.procs[a.p].decided;
        IssueStable(cfg, s, s', Issue(d.client, d.named, d.origin, d.code.value), s.now);
      }
    }
  }

  /** The application only ever holds marks of requests the provider returned. */
  lemma HeldKept(cfg: Config, s: State, a: Action)
    requires Inv(cfg, s) && Enabled(cfg, s, a)
    ensures HeldOK(Next(cfg, s, a))
  {
    if a.Save? { SavedMarks(cfg, s, a); }
    else if a.Redeem? { RedeemKept(cfg, s, a); }
    else if a.Show? { assert EntryOK(s, a.id, s.requests[a.id]); }
  }

  lemma ProcsKept(cfg: Config, s: State, a: Action)
    requires Inv(cfg, s) && Enabled(cfg, s, a)
    ensures forall p :: p in Next(cfg, s, a).procs ==> ProcOK(cfg, Next(cfg, s, a), Next(cfg, s, a).procs[p])
  {
    var s' := Next(cfg, s, a);
    StepGrows(cfg, s, a);
    forall p | p in s'.procs ensures ProcOK(cfg, s', s'.procs[p]) {
      if a.Begin? && p == a.p {
        BegunOK(cfg, s, a);
        ProcStable(cfg, s, s', s'.procs[p]);
      } else if p in s.procs {
        ProcStable(cfg, s, s', s.procs[p]);
      }
    }
  }

  lemma StepKeepsInv(cfg: Config, s: State, a: Action)
    requires Inv(cfg, s) && Enabled(cfg, s, a)
    ensures Inv(cfg, Next(cfg, s, a))
  {
    StoreKept(cfg, s, a);
    HeldKept(cfg, s, a);
    CodesKept(cfg, s, a);
    ProcsKept(cfg, s, a);
  }

  lemma {:induction false} RunKeepsInv(cfg: Config, s: State, run: seq<Action>)
    requires Inv(cfg, s) && ValidRun(cfg, s, run)
    ensures Inv(cfg, Exec(cfg, s, run)) && Grows(s, Exec(cfg, s, run))
    decreases |run|
  {
    if run != [] {
      StepKeepsInv(cfg, s, run[0]);
      StepGrows(cfg, s, run[0]);
      RunKeepsInv(cfg, Next(cfg, s, run[0]), run[1..]);
    }
  }

  // --- Guarantees ---------------------------------------------------------------------------

  /** A state the provider can get into. */
  ghost predicate Reached(cfg: Config, run: seq<Action>) { ValidRun(cfg, INITIAL, run) }

  /** Every saved request passes deletion at most once, whatever races with it, in an
      approval or denial by the user agent it is bound to. */
  lemma CompletedAtMostOnce(cfg: Config, run: seq<Action>, i: nat, j: nat)
    requires Reached(cfg, run)
    requires i < |Exec(cfg, INITIAL, run).completions| && j < |Exec(cfg, INITIAL, run).completions|
    ensures var s := Exec(cfg, INITIAL, run);
      var c := s.completions[i];
      && (c.id == s.completions[j].id ==> i == j)
      && (c.current.bindingHash == "" || c.current.bindingHash == c.binding)
      && !HasPrefix(c.id, PUSHED_PREFIX) && c.id !in s.redemptions
  {
    RunKeepsInv(cfg, INITIAL, run);
    var s := Exec(cfg, INITIAL, run);
    assert CompletionOK(s, s.completions[i].id, s.completions[i].current, s.completions[i].binding);
  }

  /** What is completed is what was saved, however long ago, up to its claims, which are
      filtered again; and a request that was saved with a cookie is only ever completed
      with that cookie. */
  lemma CompletedAsSaved(cfg: Config, before: seq<Action>, a: Action, after: seq<Action>, i: nat)
    requires Reached(cfg, before) && a.Save? && Enabled(cfg, Exec(cfg, INITIAL, before), a)
    requires ValidRun(cfg, Next(cfg, Exec(cfg, INITIAL, before), a), after)
    requires var s := Exec(cfg, Next(cfg, Exec(cfg, INITIAL, before), a), after);
      i < |s.completions| && s.completions[i].id == a.ref
    ensures var s := Exec(cfg, Next(cfg, Exec(cfg, INITIAL, before), a), after);
      var done := s.completions[i];
      && done.current == a.req.(id := a.ref, parsed := false, claims := done.current.claims,
           bindingHash := done.current.bindingHash)
      && (a.cookie.Some? && a.cookie.value != "" ==>
            done.current.bindingHash == a.cookie.value && done.binding == a.cookie.value)
  {
    RunKeepsInv(cfg, INITIAL, before);
    var s0 := Exec(cfg, INITIAL, before);
    StepKeepsInv(cfg, s0, a);
    var s1 := Next(cfg, s0, a);
    RunKeepsInv(cfg, s1, after);
    CompletedAsCreated(s1, Exec(cfg, s1, after), i);
  }

  lemma CompletedAsCreated(s: State, s': State, i: nat)
    requires Grows(s, s') && LogsOK(s') && i < |s'.completions| && s'.completions[i].id in s.created
    ensures Refiltered(s'.completions[i].current, s.created[s'.completions[i].id].record)
    ensures s'.completions[i].current.bindingHash in {"", s'.completions[i].binding}
  {
    assert CompletionOK(s', s'.completions[i].id, s'.completions[i].current, s'.completions[i].binding);
  }

  /** Every pushed request is redeemed at most once. */
  lemma RedeemedAtMostOnce(cfg: Config, run: seq<Action>, i: nat, j: nat)
    requires Reached(cfg, run)
    requires i < |Exec(cfg, INITIAL, run).redemptions| && j < |Exec(cfg, INITIAL, run).redemptions|
    requires Exec(cfg, INITIAL, run).redemptions[i] == Exec(cfg, INITIAL, run).redemptions[j]
    ensures i == j && HasPrefix(Exec(cfg, INITIAL, run).redemptions[i], PUSHED_PREFIX)
  {
    RunKeepsInv(cfg, INITIAL, run);
  }

  /** Every code is safe for the registration it was approved with, and if that
      registration or the provider demands pushed requests, the code descends from
      a request_uri that was redeemed. */
  lemma CodesDescendFromPushedRequests(cfg: Config, run: seq<Action>, i: nat)
    requires Reached(cfg, run) && i < |Exec(cfg, INITIAL, run).codes|
    ensures var s := Exec(cfg, INITIAL, run);
      var c := s.codes[i];
      && SafeCode(cfg, c.code.issuer, c.client, c.code)
      && (cfg.ParRequired(c.client) ==> c.origin.Some? && c.origin.value in s.redemptions)
  {
    RunKeepsInv(cfg, INITIAL, run);
  }

  /** A code that descends from a redeemed request was issued to the client that
      authenticated to push it if and only if the request passed to Approve, or saved
      before, still named the client of the pushed one. */
  lemma PushedByThisClientExactly(cfg: Config, run: seq<Action>, i: nat)
    requires Reached(cfg, run) && i < |Exec(cfg, INITIAL, run).codes| && Exec(cfg, INITIAL, run).codes[i].origin.Some?
    ensures var s := Exec(cfg, INITIAL, run);
      var c := s.codes[i];
      && c.origin.value in s.created
      && (s.created[c.origin.value].pusher == Some(c.code.clientID) <==>
            c.named == s.created[c.origin.value].record.clientID)
  {
    RunKeepsInv(cfg, INITIAL, run);
    var s := Exec(cfg, INITIAL, run);
    var id := s.codes[i].origin.value;
    assert id in s.redemptions && EntryOK(s, id, s.created[id]);
  }

  ghost predicate Spent(s: State, id: string) {
    id in s.redemptions || exists i :: 0 <= i < |s.completions| && s.completions[i].id == id
  }

  lemma SpentIsGone(s: State, s': State, id: string)
    requires Grows(s, s') && LogsOK(s') && Spent(s, id)
    ensures Spent(s', id) && id !in s'.requests
  {
    if id !in s.redemptions {
      var i :| 0 <= i < |s.completions| && s.completions[i].id == id;
      assert s'.completions[i] == s.completions[i];
    }
  }

  /** A request that was completed or redeemed is gone for good: whatever happens
      afterwards, it cannot be found, nor deleted by a process that loaded it before. */
  lemma SpentForGood(cfg: Config, run: seq<Action>, more: seq<Action>, id: string, issuer: string, binding: string)
    requires Reached(cfg, run) && ValidRun(cfg, Exec(cfg, INITIAL, run), more)
    requires Spent(Exec(cfg, INITIAL, run), id)
    ensures var s := Exec(cfg, Exec(cfg, INITIAL, run), more);
      Spent(s, id) && id !in s.requests && LoadPending(View(s), issuer, id, binding, s.now) == None
  {
    RunKeepsInv(cfg, INITIAL, run);
    RunKeepsInv(cfg, Exec(cfg, INITIAL, run), more);
    SpentIsGone(Exec(cfg, INITIAL, run), Exec(cfg, Exec(cfg, INITIAL, run), more), id);
  }
}
