/** What key generation guarantees in every run: any nodes, any calls, any interleaving. */
module KeyGenTheorems {
  import opened Wrappers
  import opened TssTypes
  import opened SeqLemmas
  import opened KeyStore
  import opened KeyGenModel
  import opened KeyGenInvariant

  /** Every leg of every session of every reachable state satisfies the leg invariant. */
  lemma ReachableLeg(c: Config, run: seq<State>, n: nat, sid: SessionId, i: nat)
    requires Run(c, run) && n < |run| && sid in run[n].sessions && i < |run[n].sessions[sid].legs|
    ensures var ses := run[n].sessions[sid];
      i < |ses.req.parties| && LegInv(c, run[n].stores, sid, ses.req, i, ses.legs[i])
  {
    RunInv(c, run, n);
    assert SessionInv(c, run[n].stores, sid, run[n].sessions[sid]);
  }

  // ---- the barrier ----

  /** A ready map as large as the party list holds every listed party, and then no id repeats. */
  lemma FullMeansEveryone(ses: Session)
    requires ReadyMapInv(ses) && Full(ses)
    ensures Distinct(Ids(ses.req.parties))
    ensures forall k :: 0 <= k < |ses.legs| ==> ReadyUp(ses.legs[k])
  {
    var ids, ready := Ids(ses.req.parties), ses.main.ready;
    forall p | p in ready.Keys ensures p in ToSet(ids) {
      assert ids[ready[p]] == p;
    }
    DistinctCount(ids);
    SubsetSameCard(ready.Keys, ToSet(ids));
    SubsetCard(ready.Keys, ToSet(ids));
    forall k | 0 <= k < |ses.legs| ensures ReadyUp(ses.legs[k]) {
      assert ids[k] in ToSet(ids);
      assert ids[ready[ids[k]]] == ids[k];
    }
  }

  /** What a participant that sent Ready has done before: stored the request, and passed validation
      unless its node runs in dev mode. */
  ghost predicate Prepared(c: Config, s: State, sid: SessionId, k: nat)
    requires sid in s.sessions && k < |s.sessions[sid].req.parties| == |s.sessions[sid].legs|
  {
    var ses := s.sessions[sid];
    var id, e := ses.req.parties[k].id, EntryId(ses.req.keyId, sid);
    && ReadyUp(ses.legs[k])
    && (ses.legs[k].accepted || id in c.dev)
    && id in s.stores && e in s.stores[id]
    && s.stores[id][e].threshold == ses.req.threshold
    && s.stores[id][e].allPartyId == ses.req.parties
  }

  lemma ReadyMeansPrepared(c: Config, s: State, sid: SessionId, k: nat)
    requires Inv(c, s) && sid in s.sessions
    requires k < |s.sessions[sid].legs| && ReadyUp(s.sessions[sid].legs[k])
    ensures |s.sessions[sid].req.parties| == |s.sessions[sid].legs|
    ensures Prepared(c, s, sid, k)
  {
    var ses := s.sessions[sid];
    var id, e := ses.req.parties[k].id, EntryId(ses.req.keyId, sid);
    assert LegInv(c, s.stores, sid, ses.req, k, ses.legs[k]);
    assert EntryTraced(s.sessions, id, e, s.stores[id][e]);
  }

  /** Barrier: once Start is on its way to any participant, every listed party has stored the
      request, passed validation and sent Ready; the list is then neither empty nor repeating. */
  lemma {:induction false} Barrier(c: Config, run: seq<State>, n: nat, sid: SessionId, i: nat)
    requires Run(c, run) && n < |run|
    requires sid in run[n].sessions
    requires i < |run[n].sessions[sid].legs| && KeyGenStartMsg in run[n].sessions[sid].legs[i].down
    ensures var ses := run[n].sessions[sid];
      && |ses.req.parties| == |ses.legs| > 0 && Distinct(Ids(ses.req.parties))
      && forall k: nat :: k < |ses.legs| ==> Prepared(c, run[n], sid, k)
  {
    RunInv(c, run, n);
    var ses := run[n].sessions[sid];
    assert SessionInv(c, run[n].stores, sid, ses);
    assert LegInv(c, run[n].stores, sid, ses.req, i, ses.legs[i]);
    FullMeansEveryone(ses);
    forall k: nat | k < |ses.legs| ensures Prepared(c, run[n], sid, k) {
      ReadyMeansPrepared(c, run[n], sid, k);
    }
  }

  // ---- commit agreement ----

  ghost predicate SucceededAt(s: State, sid: SessionId, pubkey: Bytes) {
    && sid in s.sessions && s.sessions[sid].main.Returned?
    && s.sessions[sid].main.result == Success(pubkey)
  }

  /** Party `k` holds the ready entry of the session, as requested, with this public key. */
  ghost predicate Holds(s: State, sid: SessionId, req: Request, k: nat, pubkey: Bytes)
    requires k < |req.parties|
  {
    var id, e := req.parties[k].id, EntryId(req.keyId, sid);
    && id in s.stores && e in s.stores[id]
    && s.stores[id][e].status == StatusReady
    && s.stores[id][e].pubkey == pubkey
    && s.stores[id][e].threshold == req.threshold
    && s.stores[id][e].allPartyId == req.parties
  }

  lemma SuccessIsHeld(c: Config, s: State, sid: SessionId, k: nat)
    requires Inv(c, s) && sid in s.sessions
    requires k < |s.sessions[sid].legs| && Succeeded(s.sessions[sid].legs[k])
    ensures |s.sessions[sid].legs| == |s.sessions[sid].req.parties|
    ensures var l := s.sessions[sid].legs[k]; var pubkey := l.up[1].keyGenFinish.publicKey;
      Holds(s, sid, s.sessions[sid].req, k, pubkey) && l.produced == Some(pubkey)
  {
    var ses := s.sessions[sid];
    var l := ses.legs[k];
    var pubkey := l.up[1].keyGenFinish.publicKey;
    var id, e := ses.req.parties[k].id, EntryId(ses.req.keyId, sid);
    assert LegInv(c, s.stores, sid, ses.req, k, l);
    assert Claims(l, pubkey);
    assert EntryTraced(s.sessions, id, e, s.stores[id][e]);
  }

  /** In any state where KeyGen has returned success, every listed party holds its ready entry, and
      the returned public key is one of theirs; if tss-lib gave them all one key, it is all of theirs. */
  lemma AgreementInState(c: Config, s: State, sid: SessionId, pubkey: Bytes)
    requires Inv(c, s) && SucceededAt(s, sid, pubkey)
    ensures var ses := s.sessions[sid];
      && |ses.legs| == |ses.req.parties| > 0 && Distinct(Ids(ses.req.parties))
      && (forall k: nat :: k < |ses.legs| ==>
            ses.legs[k].produced.Some? && Holds(s, sid, ses.req, k, ses.legs[k].produced.value))
      && (exists k: nat :: k < |ses.legs| && ses.legs[k].produced == Some(pubkey))
  {
    var ses := s.sessions[sid];
    assert SessionInv(c, s.stores, sid, ses);
    FullMeansEveryone(ses);
    forall k: nat | k < |ses.legs|
      ensures ses.legs[k].produced.Some? && Holds(s, sid, ses.req, k, ses.legs[k].produced.value)
      ensures SucceededWith(ses.legs[k], pubkey) ==> ses.legs[k].produced == Some(pubkey)
    {
      assert Succeeded(ses.legs[k]);
      SuccessIsHeld(c, s, sid, k);
    }
    var k :| 0 <= k < |ses.legs| && SucceededWith(ses.legs[k], pubkey);
    assert ses.legs[k].produced == Some(pubkey);
  }

  lemma SuccessStays(c: Config, s: State, s': State, sid: SessionId, pubkey: Bytes)
    requires Next(c, s, s') && SucceededAt(s, sid, pubkey)
    ensures SucceededAt(s', sid, pubkey) && s'.sessions[sid].req == s.sessions[sid].req
  {
    var step :| NextStep(c, s, s', step);
    if step.sid == sid {
      assert !step.StartSession?;
    }
  }

  lemma {:induction false} SuccessIsForever(c: Config, run: seq<State>, n: nat, m: nat, sid: SessionId, pubkey: Bytes)
    requires Run(c, run) && n <= m < |run| && SucceededAt(run[n], sid, pubkey)
    ensures SucceededAt(run[m], sid, pubkey) && run[m].sessions[sid].req == run[n].sessions[sid].req
    decreases m - n
  {
    if n < m {
      SuccessIsForever(c, run, n, m - 1, sid, pubkey);
      assert Next(c, run[m - 1], run[m - 1 + 1]);
      SuccessStays(c, run[m - 1], run[m], sid, pubkey);
    }
  }

  ghost predicate HoldsSomeKey(s: State, sid: SessionId, req: Request, k: nat)
    requires k < |req.parties|
  {
    exists pubkey :: Holds(s, sid, req, k, pubkey)
  }

  /** Commit agreement: after KeyGen has returned success, in that state and all later ones every
      listed party holds a ready entry with the requested threshold and party list, and the
      returned key is what a listed party stored. */
  lemma {:induction false} CommitAgreement(c: Config, run: seq<State>, n: nat, m: nat, sid: SessionId, pubkey: Bytes)
    requires Run(c, run) && n <= m < |run| && SucceededAt(run[n], sid, pubkey)
    ensures var req := run[n].sessions[sid].req;
      && (forall k: nat :: k < |req.parties| ==> HoldsSomeKey(run[m], sid, req, k))
      && (exists k: nat :: k < |req.parties| && Holds(run[m], sid, req, k, pubkey))
  {
    SuccessIsForever(c, run, n, m, sid, pubkey);
    RunInv(c, run, m);
    HeldInState(c, run[m], sid, pubkey);
  }

  lemma HeldInState(c: Config, s: State, sid: SessionId, pubkey: Bytes)
    requires Inv(c, s) && SucceededAt(s, sid, pubkey)
    ensures var req := s.sessions[sid].req;
      && (forall k: nat :: k < |req.parties| ==> HoldsSomeKey(s, sid, req, k))
      && (exists k: nat :: k < |req.parties| && Holds(s, sid, req, k, pubkey))
  {
    AgreementInState(c, s, sid, pubkey);
    var ses := s.sessions[sid];
    forall k: nat | k < |ses.req.parties| ensures HoldsSomeKey(s, sid, ses.req, k) {
      assert Holds(s, sid, ses.req, k, ses.legs[k].produced.value);
    }
  }

  lemma SuccessIsDistinct(c: Config, run: seq<State>, n: nat, sid: SessionId, pubkey: Bytes)
    requires Run(c, run) && n < |run| && SucceededAt(run[n], sid, pubkey)
    ensures var req := run[n].sessions[sid].req; |req.parties| > 0 && Distinct(Ids(req.parties))
  {
    RunInv(c, run, n);
    AgreementInState(c, run[n], sid, pubkey);
  }

  /** tss-lib gave every participant of the session that finished the same public key. */
  ghost predicate OneKey(ses: Session) {
    forall i, j ::
      0 <= i < |ses.legs| && 0 <= j < |ses.legs| && ses.legs[i].produced.Some? && ses.legs[j].produced.Some?
      ==> ses.legs[i].produced == ses.legs[j].produced
  }

  /** If tss-lib output one key in the session, the returned key is the one every party stored. */
  lemma {:induction false} OneKeyAgreement(c: Config, run: seq<State>, n: nat, m: nat, sid: SessionId, pubkey: Bytes)
    requires Run(c, run) && n <= m < |run| && SucceededAt(run[n], sid, pubkey)
    requires sid in run[m].sessions && OneKey(run[m].sessions[sid])
    ensures var req := run[n].sessions[sid].req;
      forall k: nat :: k < |req.parties| ==> Holds(run[m], sid, req, k, pubkey)
  {
    SuccessIsForever(c, run, n, m, sid, pubkey);
    RunInv(c, run, m);
    AgreementInState(c, run[m], sid, pubkey);
    var ses := run[m].sessions[sid];
    var j: nat :| j < |ses.legs| && ses.legs[j].produced == Some(pubkey);
    forall k: nat | k < |ses.req.parties| ensures Holds(run[m], sid, ses.req, k, pubkey) {
      assert ses.legs[k].produced == ses.legs[j].produced;
      assert Holds(run[m], sid, ses.req, k, ses.legs[k].produced.value);
    }
  }

  // ---- exclusivity ----

  lemma ExclusiveInState(c: Config, s: State, sid1: SessionId, sid2: SessionId, pk1: Bytes, pk2: Bytes, i: nat, j: nat)
    requires Inv(c, s) && SucceededAt(s, sid1, pk1) && SucceededAt(s, sid2, pk2)
    requires var r1, r2 := s.sessions[sid1].req, s.sessions[sid2].req;
      && r1.keyId == r2.keyId
      && i < |r1.parties| && j < |r2.parties| && r1.parties[i].id == r2.parties[j].id
    ensures sid1 == sid2
  {
    AgreementInState(c, s, sid1, pk1);
    AgreementInState(c, s, sid2, pk2);
    var r1, r2 := s.sessions[sid1].req, s.sessions[sid2].req;
    var id := r1.parties[i].id;
    var e1, e2 := EntryId(r1.keyId, sid1), EntryId(r2.keyId, sid2);
    assert Holds(s, sid1, r1, i, s.sessions[sid1].legs[i].produced.value);
    assert Holds(s, sid2, r2, j, s.sessions[sid2].legs[j].produced.value);
    assert StoreInv(s.stores[id]);
    assert Live(s.stores[id][e1]) && Live(s.stores[id][e2]);
  }

  /** Exclusivity over whole runs: two KeyGen calls for one key whose party lists share a member
      never both return success, at whatever times they return. */
  lemma {:induction false} Exclusive(c: Config, run: seq<State>, n1: nat, n2: nat,
                                     sid1: SessionId, sid2: SessionId, pk1: Bytes, pk2: Bytes, id: PartyId)
    requires Run(c, run) && n1 < |run| && n2 < |run|
    requires SucceededAt(run[n1], sid1, pk1) && SucceededAt(run[n2], sid2, pk2)
    requires run[n1].sessions[sid1].req.keyId == run[n2].sessions[sid2].req.keyId
    requires id in Ids(run[n1].sessions[sid1].req.parties) && id in Ids(run[n2].sessions[sid2].req.parties)
    ensures sid1 == sid2
  {
    var m := if n1 <= n2 then n2 else n1;
    SuccessIsForever(c, run, n1, m, sid1, pk1);
    SuccessIsForever(c, run, n2, m, sid2, pk2);
    RunInv(c, run, m);
    var ids1, ids2 := Ids(run[m].sessions[sid1].req.parties), Ids(run[m].sessions[sid2].req.parties);
    var i, j :| 0 <= i < |ids1| && 0 <= j < |ids2| && ids1[i] == id && ids2[j] == id;
    ExclusiveInState(c, run[m], sid1, sid2, pk1, pk2, i, j);
  }

  // ---- what later look-ups find ----

  /** No call has asked for a key id that continues this one with a colon. */
  ghost predicate NoExtendingRequest(s: State, keyId: KeyId) {
    forall sid :: sid in s.sessions ==> !(keyId + [COLON] <= s.sessions[sid].req.keyId)
  }

  /** After success, in any later state, looking the key up at a listed party is sure to find that
      session's entry exactly when every ready entry that the scan meets there of a key id
      continuing this one with a colon is older. */
  lemma {:induction false} StableLookupIff(c: Config, run: seq<State>, n: nat, m: nat, sid: SessionId, pubkey: Bytes,
                                           k: nat)
    requires Run(c, run) && n <= m < |run| && SucceededAt(run[n], sid, pubkey)
    requires k < |run[n].sessions[sid].req.parties|
    ensures var req := run[n].sessions[sid].req;
      var id, e := req.parties[k].id, EntryId(req.keyId, sid);
      && id in run[m].stores && e in run[m].stores[id]
      && ((forall found :: LatestReady(run[m].stores[id], req.keyId, found) ==> found == Some(run[m].stores[id][e]))
          <==> NewestInScan(run[m].stores[id], e))
  {
    var req := run[n].sessions[sid].req;
    CommitAgreement(c, run, n, m, sid, pubkey);
    assert HoldsSomeKey(run[m], sid, req, k);
    RunInv(c, run, m);
    LookupFindsItIff(run[m].stores[req.parties[k].id], EntryId(req.keyId, sid));
  }

  /** Stable lookup: after success, in every later state, looking the key up at any listed party
      finds that session's entry, so every signing there names one session, threshold and list. */
  lemma {:induction false} StableLookup(c: Config, run: seq<State>, n: nat, m: nat, sid: SessionId, pubkey: Bytes,
                                        k: nat, found: Option<KeyData>)
    requires Run(c, run) && n <= m < |run| && SucceededAt(run[n], sid, pubkey)
    requires k < |run[n].sessions[sid].req.parties|
    requires var req := run[n].sessions[sid].req;
      && req.parties[k].id in run[m].stores
      && NoExtendingRequest(run[m], req.keyId)
      && LatestReady(run[m].stores[req.parties[k].id], req.keyId, found)
    ensures var req := run[n].sessions[sid].req;
      && found.Some? && found.value.keyId == req.keyId && found.value.keySessionId == sid
      && found.value.threshold == req.threshold && found.value.allPartyId == req.parties
  {
    SuccessIsForever(c, run, n, m, sid, pubkey);
    RunInv(c, run, m);
    AgreementInState(c, run[m], sid, pubkey);
    var req := run[n].sessions[sid].req;
    var st, e := run[m].stores[req.parties[k].id], EntryId(req.keyId, sid);
    assert Holds(run[m], sid, req, k, run[m].sessions[sid].legs[k].produced.value);
    forall f | f in st ensures !(req.keyId + [COLON] <= f.keyId) {
      assert EntryTraced(run[m].sessions, req.parties[k].id, f, st[f]);
    }
    assert StoreInv(st);
    LookupFindsTheReadyEntry(st, e, found);
    assert EntryOk(e, st[e]);
  }

  // ---- decided and truthful ----

  /** Decided: unless a handler of the session at the node has yet to settle the entry, it is absent,
      ready or failed, never pending; so when the handlers there are over, or never began. */
  lemma {:induction false} Decided(c: Config, run: seq<State>, n: nat, node: PartyId, e: EntryId)
    requires Run(c, run) && n < |run|
    requires node in run[n].stores && e in run[n].stores[node]
    requires e.sessionId in run[n].sessions ==>
      var ses := run[n].sessions[e.sessionId];
      forall i: nat :: Attends(ses.req, ses.legs, i, node) ==> !Unsettled(ses.legs[i].handler)
    ensures run[n].stores[node][e].status == StatusReady || run[n].stores[node][e].status == StatusError
  {
    RunInv(c, run, n);
    var d := run[n].stores[node][e];
    assert EntryTraced(run[n].sessions, node, e, d);
    assert EntryOk(e, d) by {
      assert StoreInv(run[n].stores[node]);
    }
  }

  /** Truthful: a success that was sent, and its public key, are in the sender's store, in every
      state after the message was sent. */
  lemma {:induction false} TruthfulSuccess(c: Config, run: seq<State>, n: nat, sid: SessionId, i: nat, f: KeyGenFinish)
    requires Run(c, run) && n < |run| && sid in run[n].sessions && i < |run[n].sessions[sid].legs|
    requires KeyGenFinishMsg(f) in run[n].sessions[sid].legs[i].up && f.isSuccess
    ensures i < |run[n].sessions[sid].req.parties|
    ensures Holds(run[n], sid, run[n].sessions[sid].req, i, f.publicKey)
  {
    RunInv(c, run, n);
    ReachableLeg(c, run, n, sid, i);
    SuccessIsLast(run[n].sessions[sid].legs[i].up, f);
    SuccessIsHeld(c, run[n], sid, i);
  }

  lemma SuccessIsLast(up: seq<TssP2PMsg>, f: KeyGenFinish)
    requires UpShape(up) && KeyGenFinishMsg(f) in up && f.isSuccess
    ensures |up| == 2 && up[1] == KeyGenFinishMsg(f)
  {
  }

  /** With one handler per node, a failure that was sent means that the sender's entry is absent or
      failed, in every state after the message was sent. */
  lemma {:induction false} TruthfulFailure(c: Config, run: seq<State>, n: nat, sid: SessionId, i: nat, f: KeyGenFinish)
    requires Run(c, run) && n < |run| && sid in run[n].sessions && i < |run[n].sessions[sid].legs|
    requires KeyGenFinishMsg(f) in run[n].sessions[sid].legs[i].up && !f.isSuccess
    requires Distinct(Ids(run[n].sessions[sid].req.parties))
    ensures i < |run[n].sessions[sid].req.parties|
    ensures var req := run[n].sessions[sid].req;
      FailedAt(run[n].stores, req.parties[i].id, EntryId(req.keyId, sid))
  {
    var ses := run[n].sessions[sid];
    ReachableLeg(c, run, n, sid, i);
    var p := PrepareOf(sid, ses.req);
    FailureSentIsTrue(c, p, run[n].stores, EntryOf(p), ses.req.parties[i].id, ses.legs[i], f);
  }

  /** The node holds no entry, or a failed one. */
  ghost predicate FailedAt(stores: map<PartyId, Store>, id: PartyId, e: EntryId) {
    id in stores && (e in stores[id] ==> stores[id][e].status == StatusError)
  }

  lemma FailureSentIsTrue(c: Config, p: KeyGenPrepare, stores: map<PartyId, Store>, e: EntryId, id: PartyId,
                          l: Leg, f: KeyGenFinish)
    requires UpInv(c, p, id, l) && EntryInv(stores, e, id, l) && StatusInv(stores, e, id, l)
    requires KeyGenFinishMsg(f) in l.up && !f.isSuccess
    ensures FailedAt(stores, id, e)
  {
    var k :| 0 <= k < |l.up| && l.up[k] == KeyGenFinishMsg(f);
    assert l.handler.Over?;
  }

  /** A step changes the store of one node at most, at the acting handler's own entry. */
  lemma {:induction false} StepTouchesOwnEntry(c: Config, run: seq<State>, n: nat, s': State, step: Step,
                                               node: PartyId, e: EntryId)
    requires Run(c, run) && n < |run| && NextStep(c, run[n], s', step) && node in run[n].stores
    ensures node in s'.stores
    ensures e.sessionId != step.sid ==>
      (e in run[n].stores[node] <==> e in s'.stores[node]) &&
      (e in run[n].stores[node] ==> s'.stores[node][e] == run[n].stores[node][e])
    ensures s'.stores[node] == run[n].stores[node] || StoreNext(run[n].stores[node], s'.stores[node])
  {
    if step.HandlerStores? {
      var st, st' := run[n].stores[node], s'.stores[node];
      var ses := run[n].sessions[step.sid];
      ReachableLeg(c, run, n, step.sid, step.i);
      if node == ses.req.parties[step.i].id {
        assert Apply(st, step.op, step.ok, st');
        assert step.op.e.sessionId == step.sid;
        if e.sessionId != step.sid {
          OpTouchesOneEntry(st, step.op, step.ok, st', e);
        }
      }
    }
  }

  // ---- protocol conformance ----

  datatype Kind = Prepare | Ready | Start | Done | NotDone | Other

  function KindOf(m: TssP2PMsg): Kind {
    match m
    case KeyGenPrepareMsg(_) => Prepare
    case KeyGenReadyMsg => Ready
    case KeyGenStartMsg => Start
    case KeyGenFinishMsg(f) => if f.isSuccess then Done else NotDone
    case _ => Other
  }

  /** The control stream's possible histories. A failure may cross Prepare or Start under way. */
  predicate Conforms(kinds: seq<Kind>) {
    || kinds <= [Prepare, Ready, Start, Done]
    || kinds <= [Prepare, Ready, Start, NotDone]
    || kinds <= [Prepare, Ready, NotDone, Start]
    || kinds <= [Prepare, NotDone]
    || kinds <= [NotDone, Prepare]
  }

  /** Protocol conformance: every control stream keeps to the protocol, no end ever reads a message
      of a kind it does not expect, and no event loop meets an unknown sender or misses itself. */
  lemma {:induction false} Conformance(c: Config, run: seq<State>, n: nat, sid: SessionId, i: nat)
    requires Run(c, run) && n < |run| && sid in run[n].sessions && i < |run[n].sessions[sid].legs|
    ensures i < |run[n].sessions[sid].req.parties|
    ensures var ses := run[n].sessions[sid];
      && Conforms(Each(KindOf, ses.legs[i].log))
      && ReadsExpected(PrepareOf(sid, ses.req), ses.req.parties[i].id, ses.legs[i])
  {
    ReachableLeg(c, run, n, sid, i);
    var ses := run[n].sessions[sid];
    assert Ids(ses.req.parties)[i] == ses.req.parties[i].id;
    var p, id := PrepareOf(sid, ses.req), ses.req.parties[i].id;
    LogConforms(c, p, id, ses.legs[i]);
    LegReadsExpected(c, p, id, ses.legs[i]);
  }

  /** Whatever an end may read next is what its protocol step handles; a stream to the node itself,
      a pair of channels of capacity ten, never fills. */
  predicate ReadsExpected(p: KeyGenPrepare, id: PartyId, l: Leg) {
    && l.upRead <= |l.up| && |l.up| - l.upRead <= 2 && l.downRead <= |l.down| && |l.down| - l.downRead <= 2
    && (l.pc.AwaitReady? && l.upRead < |l.up| ==> KindOf(l.up[l.upRead]) in {Ready, NotDone})
    && (l.pc.AwaitFinish? && l.upRead < |l.up| ==> KindOf(l.up[l.upRead]) in {Done, NotDone})
    && (l.handler.AwaitPrepare? && l.downRead < |l.down| ==> l.down[l.downRead] == KeyGenPrepareMsg(p))
    && (l.handler.AwaitStart? && l.downRead < |l.down| ==>
          l.down[l.downRead] == KeyGenStartMsg && l.prepare.Some? && id in Ids(l.prepare.value.allPartyId))
    && (l.handler.Running? ==> l.prepare.Some?)
    && (l.handler.Running? ==>
          forall m :: m in l.mail && m.msg.ProcessUpdate? ==> m.msg.fromPartyId in Ids(l.prepare.value.allPartyId))
  }

  lemma LegReadsExpected(c: Config, p: KeyGenPrepare, id: PartyId, l: Leg)
    requires DownInv(p, l) && UpInv(c, p, id, l) && RoutingInv(p.allPartyId, id, l) && id in Ids(p.allPartyId)
    ensures ReadsExpected(p, id, l)
  {
  }

  lemma LogConforms(c: Config, p: KeyGenPrepare, id: PartyId, l: Leg)
    requires DownInv(p, l) && UpInv(c, p, id, l) && LogInv(l)
    ensures Conforms(Each(KindOf, l.log))
  {
    if |l.down| == 2 {
      assert l.down == [KeyGenPrepareMsg(p), KeyGenStartMsg];
      FullLogConforms(l);
    } else {
      ShortLogConforms(p, l);
    }
  }

  lemma ShortLogConforms(p: KeyGenPrepare, l: Leg)
    requires UpShape(l.up) && LogInv(l) && (l.down == [] || l.down == [KeyGenPrepareMsg(p)])
    ensures Conforms(Each(KindOf, l.log))
  {
    if |l.up| == 2 {
      assert l.up == [l.up[0], l.up[1]];
    }
  }

  lemma FullLogConforms(l: Leg)
    requires UpShape(l.up) && LogInv(l) && ReadyUp(l)
    requires |l.down| == 2 && l.down[0].KeyGenPrepareMsg? && l.down[1].KeyGenStartMsg?
    ensures Conforms(Each(KindOf, l.log))
  {
    if |l.up| == 1 {
      assert l.log == [l.down[0], l.up[0], l.down[1]];
    } else if l.log == [l.down[0], l.up[0], l.down[1]] + l.up[1..] {
      assert l.log == [l.down[0], l.up[0], l.down[1], l.up[1]];
    } else {
      assert l.log == [l.down[0], l.up[0], l.up[1], l.down[1]];
    }
  }
}
