/** The interleaved token endpoint refines the atomic one, and what follows from
    it for every run. */
module Refinement {
  import opened Basics
  import opened Records
  import opened Interleaving
  import opened InterleavingProof
  import Memory
  import A = AtomicGrants

  /** The disclosed tokens in the store. */
  function Live(s: State): map<Hash, Token> {
    map h | h in s.tokens && h in s.disclosed :: s.tokens[h]
  }

  function Abs(s: State): A.State {
    A.State(s.now, Live(s), s.disclosed, s.public, s.revoked, s.log)
  }

  /** The records that are not in the store when they are disclosed. */
  function Missing(s: State, p: Proc): set<Hash> {
    set r | r in p.records && r.hash !in s.tokens :: r.hash
  }

  /** The atomic step a step amounts to. Storing and discarding undisclosed
      tokens, and all decisions, amount to none. */
  function Abstracted(s: State, act: Action): A.Action {
    match act
    case Advance(now) => A.Advance(now)
    case Expire(hashes) => A.Expire(hashes)
    case IssueCode(t) => A.Grant([t], {})
    case Consume(pid, ok) =>
      if ok && pid in s.procs && s.procs[pid].token.hash in s.tokens
        && s.tokens[s.procs[pid].token.hash].consumedAt == None
      then A.Exchange(s.procs[pid].token.hash, s.procs[pid].records, Missing(s, s.procs[pid]))
      else A.Stutter
    case Deliver(pid) =>
      if pid in s.procs then A.Grant(s.procs[pid].records, Missing(s, s.procs[pid])) else A.Stutter
    case RevokeReused(pid, ok) =>
      if ok && pid in s.procs then A.RevokeGrant(s.procs[pid].token.grantID) else A.Stutter
    case Revoke(pid, ok) =>
      if !ok || pid !in s.procs then A.Stutter
      else if s.procs[pid].token.kind == RefreshToken then A.RevokeGrant(s.procs[pid].token.grantID)
      else A.RevokeToken(s.procs[pid].token.hash)
    case _ => A.Stutter
  }

  ghost predicate Refines(s: State, s': State, aa: A.Action) {
    A.Enabled(Abs(s), aa) && A.Next(Abs(s), aa) == Abs(s')
  }

  lemma BatchOfProc(s: State, p: Proc)
    requires ProcOK(s, p) && p.records != []
    ensures A.Batch(p.records, p.token.grantID)
  {
    forall i | 0 <= i < |p.records| ensures p.records[i].grantID == p.token.grantID && p.records[i].consumedAt == None {
      assert RecordOK(s, p.token.grantID, p.records[i]);
    }
  }

  /** What is added to a map of tokens, key by key. */
  lemma AddingExact(live: map<Hash, Token>, records: seq<Token>, missing: set<Hash>)
    requires 1 <= |records| <= 2 && (|records| == 2 ==> records[0].hash != records[1].hash)
    ensures var m := A.Adding(live, records, missing);
      && (forall k :: k in m <==> k in live || (k in A.Hashes(records) && k !in missing))
      && (forall i :: 0 <= i < |records| && records[i].hash !in missing ==> m[records[i].hash] == records[i])
      && (forall k :: k in live && k !in A.Hashes(records) ==> m[k] == live[k])
  {
    var front := records[..|records|-1];
    assert A.Adding(live, front, missing) ==
      if |records| == 1 || records[0].hash in missing then live else live[records[0].hash := records[0]] by {
      if |records| == 2 {
        assert front == [records[0]] && front[..0] == [];
      }
    }
    if |records| == 1 {
      assert records == [records[0]];
      assert A.Hashes(records) == {records[0].hash};
    } else {
      assert records == [records[0], records[1]];
      assert A.Hashes(records) == {records[0].hash, records[1].hash};
    }
  }

  lemma HashIndex(records: seq<Token>, k: Hash) returns (i: nat)
    requires k in A.Hashes(records)
    ensures i < |records| && records[i].hash == k
  {
    var r :| r in records && r.hash == k;
    i :| 0 <= i < |records| && records[i] == r;
  }

  lemma MissingExact(s: State, p: Proc, i: nat)
    requires i < |p.records|
    ensures p.records[i].hash in Missing(s, p) <==> p.records[i].hash !in s.tokens
  {
    assert p.records[i] in p.records;
  }

  /** Disclosing the records of a process adds exactly the stored ones. */
  lemma LiveAfterDisclosing(s: State, s': State, p: Proc, live: map<Hash, Token>)
    requires A.Batch(p.records, p.token.grantID) && Hidden(s, p.records)
    requires forall i :: 0 <= i < |p.records| && p.records[i].hash in s.tokens ==>
      s.tokens[p.records[i].hash] == p.records[i]
    requires s'.disclosed == s.disclosed + A.Hashes(p.records)
    requires s'.tokens.Keys == s.tokens.Keys && live.Keys == s.tokens.Keys * s.disclosed
    requires forall k :: k in live ==> s'.tokens[k] == live[k]
    requires forall k :: k in s.tokens && k !in s.disclosed ==> s'.tokens[k] == s.tokens[k]
    ensures A.Adding(live, p.records, Missing(s, p)) == Live(s')
  {
    var m, l := A.Adding(live, p.records, Missing(s, p)), Live(s');
    AddingExact(live, p.records, Missing(s, p));
    forall k ensures (k in m <==> k in l) && (k in l ==> m[k] == l[k]) {
      if k in A.Hashes(p.records) {
        var i := HashIndex(p.records, k);
        MissingExact(s, p, i);
      }
    }
  }

  lemma MissingAreLost(s: State, p: Proc)
    requires StoredSoFar(s, p.records, |p.records|, true)
    ensures A.Lost(Abs(s), p.records, Missing(s, p))
  {
  }

  /** Consuming an unused credential and disclosing what was minted for it. */
  lemma RedeemRefines(s: State, s': State, p: Proc)
    requires Discloses(s, s', p) && p.job.Exchanging? && A.Batch(p.records, p.token.grantID)
    requires Hidden(s, p.records) && Own(s, p.records)
    requires p.token.hash in s.disclosed && p.token.SingleUse() && p.token.grantID in s.public
    requires Same(s.tokens[p.token.hash], p.token)
    requires StoredSoFar(s, p.records, |p.records|, true)
    requires s'.log == s.log + [A.Delivery(p.token.grantID, Some(p.token.hash), A.Credential(p.records))]
    ensures Refines(s, s', A.Exchange(p.token.hash, p.records, Missing(s, p)))
  {
    var h := p.token.hash;
    MissingAreLost(s, p);
    LiveAfterDisclosing(s, s', p, A.Consuming(Live(s), h, s.now));
    assert s.public + {p.token.grantID} == s.public;
  }

  lemma ConsumeRefines(s: State, pid: nat, ok: bool)
    requires Inv(s) && CanChange(s, Consume(pid, ok))
    ensures Refines(s, AfterConsume(s, pid, ok), Abstracted(s, Consume(pid, ok)))
  {
    var p := s.procs[pid];
    var h := p.token.hash;
    var s' := AfterConsume(s, pid, ok);
    assert ProcOK(s, p) && LoadedOK(s, p.token);
    if ok && h in s.tokens && s.tokens[h].consumedAt == None {
      BatchOfProc(s, p);
      RedeemRefines(s, s', p);
    } else {
      HiddenChangeRefines(s, s');
    }
  }

  lemma DeliverRefines(s: State, pid: nat)
    requires Inv(s) && CanChange(s, Deliver(pid))
    ensures Refines(s, Disclosing(s, pid, None), Abstracted(s, Deliver(pid)))
  {
    var p := s.procs[pid];
    assert ProcOK(s, p);
    assert StoredSoFar(s, p.records, |p.records|, true);
    BatchOfProc(s, p);
    MissingAreLost(s, p);
    LiveAfterDisclosing(s, Disclosing(s, pid, None), p, Live(s));
    assert A.Enabled(Abs(s), A.Grant(p.records, Missing(s, p)));
  }

  lemma RevokeGrantRefines(s: State, s': State, g: string)
    requires g in s.public && SameHistory(s, s'.(revoked := s.revoked)) && s'.log == s.log
    requires s'.revoked == s.revoked + {g} && s'.tokens == Memory.WithoutGrant(s.tokens, g)
    ensures Refines(s, s', A.RevokeGrant(g))
  {
    assert Live(s') == map h | h in Live(s) && Live(s)[h].grantID != g :: Live(s)[h];
  }

  lemma HiddenChangeRefines(s: State, s': State)
    requires SameHistory(s, s') && s'.log == s.log && Live(s') == Live(s)
    ensures Refines(s, s', A.Stutter)
  {
  }

  lemma RevokeRefines(s: State, pid: nat, ok: bool)
    requires Inv(s) && CanChange(s, Revoke(pid, ok))
    ensures Refines(s, AfterRevoke(s, pid, ok), Abstracted(s, Revoke(pid, ok)))
  {
    var t := s.procs[pid].token;
    var s' := AfterRevoke(s, pid, ok);
    assert ProcOK(s, s.procs[pid]) && LoadedOK(s, t);
    if ok && t.kind == RefreshToken {
      RevokeGrantRefines(s, s', t.grantID);
    } else if ok {
      assert Live(s') == Live(s) - {t.hash};
    } else {
      HiddenChangeRefines(s, s');
    }
  }

  lemma RevokeReusedRefines(s: State, pid: nat, ok: bool)
    requires Inv(s) && ExchangingAt(s, pid, Revoking)
    ensures Refines(s, AfterRevokeReused(s, pid, ok), Abstracted(s, RevokeReused(pid, ok)))
  {
    assert ProcOK(s, s.procs[pid]) && LoadedOK(s, s.procs[pid].token);
    if ok {
      RevokeGrantRefines(s, AfterRevokeReused(s, pid, ok), s.procs[pid].token.grantID);
    } else {
      HiddenChangeRefines(s, AfterRevokeReused(s, pid, ok));
    }
  }

  lemma StoreRefines(s: State, pid: nat, ok: bool)
    requires Inv(s) && CanChange(s, Store(pid, ok))
    ensures Refines(s, AfterStore(s, pid, ok), A.Stutter)
  {
    assert ProcOK(s, s.procs[pid]);
    assert Live(AfterStore(s, pid, ok)) == Live(s);
    HiddenChangeRefines(s, AfterStore(s, pid, ok));
  }

  lemma DiscardRefines(s: State, pid: nat, ok: bool)
    requires Inv(s) && CanChange(s, Discard(pid, ok))
    ensures Refines(s, AfterDiscard(s, pid, ok), A.Stutter)
  {
    assert ProcOK(s, s.procs[pid]);
    assert Live(AfterDiscard(s, pid, ok)) == Live(s);
    HiddenChangeRefines(s, AfterDiscard(s, pid, ok));
  }

  lemma ChangeRefines(s: State, act: Action)
    requires Inv(s) && act.ChangesStore() && CanChange(s, act)
    ensures Refines(s, Changed(s, act), Abstracted(s, act))
  {
    match act
    case Store(pid, ok) => StoreRefines(s, pid, ok);
    case Consume(pid, ok) => ConsumeRefines(s, pid, ok);
    case Deliver(pid) => DeliverRefines(s, pid);
    case RevokeReused(pid, ok) => RevokeReusedRefines(s, pid, ok);
    case Discard(pid, ok) => DiscardRefines(s, pid, ok);
    case Revoke(pid, ok) => RevokeRefines(s, pid, ok);
  }

  lemma IssueCodeRefines(s: State, t: Token)
    requires Inv(s) && t.kind == AuthorizationCode && t.consumedAt == None && t.hash !in s.used
      && t.grantID !in s.grants
    ensures Refines(s, AfterIssueCode(s, t), A.Grant([t], {}))
  {
    var s' := AfterIssueCode(s, t);
    assert A.Hashes([t]) == {t.hash} && A.Credential([t]) == Some(t.hash);
    assert A.Adding(Live(s), [t], {}) == Live(s') by {
      assert [t][..0] == [] && A.Adding(Live(s), [], {}) == Live(s);
      assert Live(s') == Live(s)[t.hash := t];
    }
  }

  /** Every step of the interleaved endpoint is a step of the atomic one. */
  lemma StepRefines(cfg: Config, s: State, act: Action)
    requires Inv(s) && Enabled(cfg, s, act)
    ensures Refines(s, Next(cfg, s, act), Abstracted(s, act))
  {
    if act.ChangesStore() {
      ChangeRefines(s, act);
    } else if act.IssueCode? {
      IssueCodeRefines(s, act.code);
    } else if act.Expire? {
      assert Live(s.(tokens := s.tokens - act.hashes)) == Live(s) - act.hashes;
    } else {
      assert Live(Next(cfg, s, act)) == Live(s);
    }
  }

  ghost function AbstractedRun(cfg: Config, s: State, acts: seq<Action>): seq<A.Action>
    requires ValidRun(cfg, s, acts)
    decreases acts
  {
    if acts == [] then [] else [Abstracted(s, acts[0])] + AbstractedRun(cfg, Next(cfg, s, acts[0]), acts[1..])
  }

  /** Under every interleaving, the disclosed tokens behave as if each exchange
      were one atomic step. */
  lemma {:induction false} RunRefines(cfg: Config, s: State, acts: seq<Action>)
    requires cfg.Valid() && Inv(s) && ValidRun(cfg, s, acts)
    ensures A.ValidRun(Abs(s), AbstractedRun(cfg, s, acts))
    ensures A.Exec(Abs(s), AbstractedRun(cfg, s, acts)) == Abs(Exec(cfg, s, acts))
    decreases acts
  {
    if acts != [] {
      var s' := Next(cfg, s, acts[0]);
      StepRefines(cfg, s, acts[0]);
      StepKeepsInv(cfg, s, acts[0]);
      RunRefines(cfg, s', acts[1..]);
      var rest := AbstractedRun(cfg, s', acts[1..]);
      assert ([Abstracted(s, acts[0])] + rest)[1..] == rest;
    }
  }
}
