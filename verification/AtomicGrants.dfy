/** The specification of grants: every exchange is one atomic step that consumes
    a credential and discloses the tokens issued for it.

    Only disclosed tokens exist at this level. The log records every disclosure,
    and the safety of the whole protocol is proved here once; module
    `Refinement` shows that the interleaved implementation only takes these
    steps. */
module AtomicGrants {
  import opened Basics
  import opened Records

  /** Tokens were disclosed: for the credential `parent`, or for a new grant.
      `credential` is the code or refresh token among them. */
  datatype Delivery = Delivery(grant: string, parent: Option<Hash>, credential: Option<Hash>)

  datatype State = State(
    now: Time,
    live: map<Hash, Token>,
    disclosed: set<Hash>,
    public: set<string>,
    revoked: set<string>,
    log: seq<Delivery>)

  const INITIAL := State(0, map[], {}, {}, {}, [])

  datatype Action =
    | Stutter
    | Advance(now: Time)
    | Expire(hashes: set<Hash>)
    | Grant(records: seq<Token>, missing: set<Hash>)
    | Exchange(parent: Hash, records: seq<Token>, missing: set<Hash>)
    | RevokeGrant(grant: string)
    | RevokeToken(hash: Hash)

  function Hashes(records: seq<Token>): set<Hash> {
    set r | r in records :: r.hash
  }

  /** The code or refresh token among the records: at most one, at the end. */
  function Credential(records: seq<Token>): Option<Hash> {
    if records != [] && records[|records|-1].SingleUse() then Some(records[|records|-1].hash) else None
  }

  /** Records that are disclosed together: unconsumed tokens of one grant, of
      which only the last may be a credential. */
  ghost predicate Batch(records: seq<Token>, grant: string) {
    && 1 <= |records| <= 2
    && (forall i :: 0 <= i < |records| ==> records[i].grantID == grant && records[i].consumedAt == None)
    && (|records| == 2 ==> !records[0].SingleUse() && records[0].hash != records[1].hash)
  }

  function Adding(live: map<Hash, Token>, records: seq<Token>, missing: set<Hash>): map<Hash, Token>
    decreases records
  {
    if records == [] then live
    else
      var rest := Adding(live, records[..|records|-1], missing);
      var r := records[|records|-1];
      if r.hash in missing then rest else rest[r.hash := r]
  }

  function Consuming(live: map<Hash, Token>, h: Hash, now: Time): map<Hash, Token>
    requires h in live
  {
    live[h := live[h].(consumedAt := Some(now))]
  }

  ghost predicate Undisclosed(s: State, records: seq<Token>) {
    forall i :: 0 <= i < |records| ==> records[i].hash !in s.disclosed
  }

  /** Records that had already expired, and were collected, when disclosed. */
  ghost predicate Lost(s: State, records: seq<Token>, missing: set<Hash>) {
    forall i :: 0 <= i < |records| && records[i].hash in missing ==> Collectable(s.now, records[i].expiresAt)
  }

  ghost predicate Enabled(s: State, act: Action) {
    match act
    case Stutter => true
    case Advance(now) => s.now <= now
    case Expire(hashes) => forall h :: h in hashes && h in s.live ==> Collectable(s.now, s.live[h].expiresAt)
    case Grant(records, missing) =>
      records != [] && Batch(records, records[0].grantID) && records[0].grantID !in s.public
      && Undisclosed(s, records) && Lost(s, records, missing)
    case Exchange(h, records, missing) =>
      h in s.live && s.live[h].SingleUse() && s.live[h].consumedAt == None
      && Batch(records, s.live[h].grantID) && Undisclosed(s, records) && Lost(s, records, missing)
    case RevokeGrant(g) => g in s.public
    case RevokeToken(h) => h in s.live ==> !s.live[h].SingleUse()
  }

  function Next(s: State, act: Action): State {
    match act
    case Stutter => s
    case Advance(now) => s.(now := now)
    case Expire(hashes) => s.(live := s.live - hashes)
    case Grant(records, missing) =>
      if records == [] then s else
      s.(live := Adding(s.live, records, missing), disclosed := s.disclosed + Hashes(records),
         public := s.public + {records[0].grantID},
         log := s.log + [Delivery(records[0].grantID, None, Credential(records))])
    case Exchange(h, records, missing) =>
      if h !in s.live then s else
      s.(live := Adding(Consuming(s.live, h, s.now), records, missing), disclosed := s.disclosed + Hashes(records),
         log := s.log + [Delivery(s.live[h].grantID, Some(h), Credential(records))])
    case RevokeGrant(g) =>
      s.(live := map h | h in s.live && s.live[h].grantID != g :: s.live[h], revoked := s.revoked + {g})
    case RevokeToken(h) => s.(live := s.live - {h})
  }

  ghost predicate ValidRun(s: State, acts: seq<Action>)
    decreases acts
  {
    acts == [] || (Enabled(s, acts[0]) && ValidRun(Next(s, acts[0]), acts[1..]))
  }

  function Exec(s: State, acts: seq<Action>): State
    decreases acts
  {
    if acts == [] then s else Exec(Next(s, acts[0]), acts[1..])
  }

  // --- The log --------------------------------------------------------------

  function Latest(log: seq<Delivery>, grant: string): Option<Delivery> {
    if log == [] then None
    else if log[|log|-1].grant == grant then Some(log[|log|-1])
    else Latest(log[..|log|-1], grant)
  }

  /** Every delivery starts a new grant or redeems the credential of the
      previous delivery of its grant. */
  predicate Linear(log: seq<Delivery>) {
    log == [] ||
    var before, d := log[..|log|-1], log[|log|-1];
    && Linear(before)
    && match d.parent
       case None => Latest(before, d.grant) == None
       case Some(h) => Latest(before, d.grant).Some? && Latest(before, d.grant).value.credential == Some(h)
  }

  ghost predicate DistinctCredentials(log: seq<Delivery>) {
    forall i, j :: 0 <= i < j < |log| && log[i].credential.Some? ==> log[i].credential != log[j].credential
  }

  lemma {:induction false} LatestIndex(log: seq<Delivery>, grant: string) returns (i: nat)
    requires Latest(log, grant).Some?
    ensures i < |log| && log[i] == Latest(log, grant).value && log[i].grant == grant
    ensures forall k :: i < k < |log| ==> log[k].grant != grant
  {
    if log[|log|-1].grant == grant {
      i := |log| - 1;
    } else {
      i := LatestIndex(log[..|log|-1], grant);
    }
  }

  lemma {:induction false} LinearPrefix(log: seq<Delivery>, n: nat)
    requires Linear(log) && n <= |log|
    ensures Linear(log[..n])
  {
    if n < |log| {
      LinearPrefix(log[..|log|-1], n);
      assert log[..|log|-1][..n] == log[..n];
    } else {
      assert log[..n] == log;
    }
  }

  /** In a linear log, the delivery at `j` that redeems `h` comes right after
      the one that disclosed `h`, as far as its grant is concerned. */
  lemma Predecessor(log: seq<Delivery>, j: nat) returns (i: nat)
    requires Linear(log) && j < |log| && log[j].parent.Some?
    ensures i < j && log[i].grant == log[j].grant && log[i].credential == log[j].parent
    ensures forall k :: i < k < j ==> log[k].grant != log[j].grant
  {
    LinearPrefix(log, j + 1);
    assert log[..j+1][..j] == log[..j];
    i := LatestIndex(log[..j], log[j].grant);
  }

  /** Every code and every refresh token is redeemed at most once. */
  lemma RedeemedOnce(log: seq<Delivery>, j: nat, k: nat)
    requires Linear(log) && DistinctCredentials(log)
    requires j < k < |log| && log[j].parent.Some?
    ensures log[j].parent != log[k].parent
  {
    if log[j].parent == log[k].parent {
      var i := Predecessor(log, j);
      var i' := Predecessor(log, k);
      assert false;
    }
  }

  // --- Invariant ------------------------------------------------------------

  ghost predicate LogOK(s: State) {
    && Linear(s.log)
    && DistinctCredentials(s.log)
    && (forall i :: 0 <= i < |s.log| ==> s.log[i].grant in s.public)
    && (forall i :: 0 <= i < |s.log| && s.log[i].credential.Some? ==> s.log[i].credential.value in s.disclosed)
    && (forall g :: g !in s.public ==> Latest(s.log, g) == None)
  }

  /** `h` is the credential of the latest delivery of `grant`. */
  predicate Credits(log: seq<Delivery>, grant: string, h: Hash) {
    Latest(log, grant).Some? && Latest(log, grant).value.credential == Some(h)
  }

  ghost predicate RedeemedIn(log: seq<Delivery>, h: Hash) {
    exists i :: 0 <= i < |log| && log[i].parent == Some(h)
  }

  /** A live token belongs to a public grant that was not revoked; unused, it is
      the newest credential of its grant; used, it was redeemed. */
  ghost predicate TokenOK(s: State, h: Hash, t: Token) {
    && t.hash == h && h in s.disclosed
    && t.grantID in s.public && t.grantID !in s.revoked
    && (t.SingleUse() && t.consumedAt == None ==> Credits(s.log, t.grantID, h))
    && (t.consumedAt.Some? ==> RedeemedIn(s.log, h))
  }

  ghost predicate LiveOK(s: State) {
    forall h :: h in s.live ==> TokenOK(s, h, s.live[h])
  }

  ghost predicate Inv(s: State) {
    s.revoked <= s.public && LogOK(s) && LiveOK(s)
  }

  lemma LatestAppend(log: seq<Delivery>, d: Delivery, grant: string)
    ensures Latest(log + [d], grant) == if d.grant == grant then Some(d) else Latest(log, grant)
  {
    assert (log + [d])[..|log|] == log;
  }

  lemma RedeemedAppend(log: seq<Delivery>, d: Delivery, h: Hash)
    requires RedeemedIn(log, h) || d.parent == Some(h)
    ensures RedeemedIn(log + [d], h)
  {
    if RedeemedIn(log, h) {
      var i :| 0 <= i < |log| && log[i].parent == Some(h);
      assert (log + [d])[i].parent == Some(h);
    } else {
      assert (log + [d])[|log|].parent == Some(h);
    }
  }

  lemma {:induction false} AddingDomain(live: map<Hash, Token>, records: seq<Token>, missing: set<Hash>, h: Hash)
    requires h in Adding(live, records, missing)
    ensures (exists i :: 0 <= i < |records| && records[i].hash == h && Adding(live, records, missing)[h] == records[i])
      || (h in live && Adding(live, records, missing)[h] == live[h])
    decreases records
  {
    if records != [] {
      var r := records[|records|-1];
      if r.hash in missing || h != r.hash {
        AddingDomain(live, records[..|records|-1], missing, h);
      }
    }
  }

  /** Appending a delivery of `grant` that has no unused credential left. */
  lemma DeliveryKeepsLog(s: State, s': State, d: Delivery, records: seq<Token>)
    requires LogOK(s) && Batch(records, d.grant) && Undisclosed(s, records)
    requires d.credential == Credential(records)
    requires d.parent == None ==> d.grant !in s.public
    requires d.parent.Some? ==> d.grant in s.public && Credits(s.log, d.grant, d.parent.value)
    requires s'.log == s.log + [d] && s'.public == s.public + {d.grant} && s'.disclosed == s.disclosed + Hashes(records)
    ensures LogOK(s')
  {
    assert s'.log[..|s.log|] == s.log;
    assert d.credential.Some? ==> d.credential.value in Hashes(records) && d.credential.value !in s.disclosed by {
      assert records[|records|-1] in records;
    }
    forall g | g !in s'.public ensures Latest(s'.log, g) == None {
      LatestAppend(s.log, d, g);
    }
  }

  /** What a delivery does to the state, apart from the live tokens. */
  ghost predicate Delivers(s: State, s': State, d: Delivery, records: seq<Token>) {
    && Batch(records, d.grant) && d.credential == Credential(records)
    && s'.log == s.log + [d] && s'.public == s.public + {d.grant}
    && s'.disclosed == s.disclosed + Hashes(records) && s'.revoked == s.revoked
  }

  lemma OldTokenStaysOK(s: State, s': State, d: Delivery, records: seq<Token>, h: Hash, t: Token, t': Token)
    requires Delivers(s, s', d, records) && TokenOK(s, h, t)
    requires t' == t || (t'.consumedAt.Some? && t' == t.(consumedAt := t'.consumedAt) && d.parent == Some(h))
    requires t.grantID == d.grant && t'.SingleUse() ==> t'.consumedAt.Some?
    ensures TokenOK(s', h, t')
  {
    LatestAppend(s.log, d, t.grantID);
    if t'.consumedAt.Some? {
      RedeemedAppend(s.log, d, h);
    }
  }

  lemma NewTokenOK(s: State, s': State, d: Delivery, records: seq<Token>, i: nat)
    requires Delivers(s, s', d, records) && d.grant !in s.revoked && i < |records|
    ensures TokenOK(s', records[i].hash, records[i])
  {
    assert records[i] in records;
    LatestAppend(s.log, d, d.grant);
  }

  lemma GrantKeepsInv(s: State, records: seq<Token>, missing: set<Hash>)
    requires Inv(s) && Enabled(s, Grant(records, missing))
    ensures Inv(Next(s, Grant(records, missing)))
  {
    var s' := Next(s, Grant(records, missing));
    var d := Delivery(records[0].grantID, None, Credential(records));
    assert Delivers(s, s', d, records);
    DeliveryKeepsLog(s, s', d, records);
    forall h | h in s'.live ensures TokenOK(s', h, s'.live[h]) {
      AddingDomain(s.live, records, missing, h);
      if i :| 0 <= i < |records| && records[i].hash == h && s'.live[h] == records[i] {
        NewTokenOK(s, s', d, records, i);
      } else {
        OldTokenStaysOK(s, s', d, records, h, s.live[h], s.live[h]);
      }
    }
  }

  lemma ExchangeKeepsInv(s: State, parent: Hash, records: seq<Token>, missing: set<Hash>)
    requires Inv(s) && Enabled(s, Exchange(parent, records, missing))
    ensures Inv(Next(s, Exchange(parent, records, missing)))
  {
    var s' := Next(s, Exchange(parent, records, missing));
    var d := Delivery(s.live[parent].grantID, Some(parent), Credential(records));
    var live := Consuming(s.live, parent, s.now);
    assert s.public + {d.grant} == s.public;
    assert Delivers(s, s', d, records);
    DeliveryKeepsLog(s, s', d, records);
    forall h | h in s'.live ensures TokenOK(s', h, s'.live[h]) {
      AddingDomain(live, records, missing, h);
      if i :| 0 <= i < |records| && records[i].hash == h && s'.live[h] == records[i] {
        NewTokenOK(s, s', d, records, i);
      } else {
        if h != parent && s.live[h].grantID == d.grant && s.live[h].SingleUse() && s.live[h].consumedAt == None {
          OneUnusedCredential(s, h, parent);
        }
        OldTokenStaysOK(s, s', d, records, h, s.live[h], live[h]);
      }
    }
  }

  lemma StepKeepsInv(s: State, act: Action)
    requires Inv(s) && Enabled(s, act)
    ensures Inv(Next(s, act))
  {
    match act
    case Grant(records, missing) => GrantKeepsInv(s, records, missing);
    case Exchange(h, records, missing) => ExchangeKeepsInv(s, h, records, missing);
    case Stutter =>
    case Advance(now) =>
    case Expire(hashes) =>
    case RevokeGrant(g) =>
    case RevokeToken(h) =>
  }

  lemma {:induction false} RunKeepsInv(s: State, acts: seq<Action>)
    requires Inv(s) && ValidRun(s, acts)
    ensures Inv(Exec(s, acts))
    ensures s.revoked <= Exec(s, acts).revoked && s.disclosed <= Exec(s, acts).disclosed && s.log <= Exec(s, acts).log
    decreases acts
  {
    if acts != [] {
      StepKeepsInv(s, acts[0]);
      RunKeepsInv(Next(s, acts[0]), acts[1..]);
    }
  }

  /** A grant never has two unused credentials. */
  lemma OneUnusedCredential(s: State, h: Hash, k: Hash)
    requires Inv(s) && h in s.live && k in s.live && s.live[h].grantID == s.live[k].grantID
    requires s.live[h].SingleUse() && s.live[h].consumedAt == None
    requires s.live[k].SingleUse() && s.live[k].consumedAt == None
    ensures h == k
  {
  }
}
