/** What a signing session guarantees in every run, whatever fails and whatever key generation does. */
module KeySignSystemTheorems {
  import opened Wrappers
  import opened TssTypes
  import opened SeqLemmas
  import opened KeyStore
  import opened KeySignSystem
  import opened KeySignSystemInvariant
  import M = KeySignModel
  import MI = KeySignInvariant
  import MT = KeySignTheorems
  import MS = KeySignStreams
  import G = KeyGenModel
  import GT = KeyGenTheorems

  // ---- the coordinator inside the session ----

  /** The coordinator of a session only does what KeySignModel says, so all that is proved of its
      reachable states, against any participants, holds here. */
  lemma {:induction false} CoordinatorReachable(c: SignConfig, run: seq<Sys>, n: nat)
    requires Run(c, run) && n < |run|
    ensures M.Reachable(c.co, run[n].co)
  {
    if n == 0 {
      MT.InitReachable(c.co);
    } else {
      CoordinatorReachable(c, run, n - 1);
      assert Next(c, run[n - 1], run[n - 1 + 1]);
      NextMovesCoordinator(c, run[n - 1], run[n]);
    }
  }

  lemma NextMovesCoordinator(c: SignConfig, s: Sys, s': Sys)
    requires Next(c, s, s') && M.Reachable(c.co, s.co)
    ensures M.Reachable(c.co, s'.co)
  {
    var step :| NextStep(c, s, s', step);
    if step.Coordinator? {
      MT.StepReaches(c.co, s.co, s'.co, step.step);
    }
  }

  lemma EndOf(c: SignConfig, run: seq<Sys>, n: nat, i: nat)
    requires Run(c, run) && n < |run| && i < |run[n].ends|
    ensures var s := run[n];
      && |s.ends| == |s.co.legs| == |c.co.parties|
      && EndInv(c, s.co, s.stores, c.co.parties[i].id, s.co.legs[i], s.ends[i])
  {
    RunInvariant(c, run, n);
    EndAt(c, run[n], i);
  }

  // ---- the hidden status guard ----

  /** The node holds the named key session, and it is ready. */
  ghost predicate HoldsReady(stores: map<PartyId, Store>, id: PartyId, ent: EntryId) {
    id in stores && ent in stores[id] && stores[id][ent].status == StatusReady
  }

  lemma PreparedHoldsReady(c: SignConfig, stores: map<PartyId, Store>, id: PartyId, e: End)
    requires Prepared(c, c.co.prepare, id, e) && DataInv(stores, EntryOfPrepare(c.co.prepare), id, e)
    ensures HoldsReady(stores, id, EntryOfPrepare(c.co.prepare))
    ensures stores[id][EntryOfPrepare(c.co.prepare)] == e.data.value
  {
  }

  /** Hidden status guard: a participant sends Ready only with a ready entry for the named session,
      and having passed validation unless in dev mode; nothing in the handler looks at the status. */
  lemma {:induction false} StatusGuard(c: SignConfig, run: seq<Sys>, n: nat, i: nat)
    requires Run(c, run) && n < |run| && i < |run[n].ends| && KeySignReadyMsg in run[n].ends[i].up
    ensures |run[n].ends| == |c.co.parties|
    ensures var id := c.co.parties[i].id;
      && HoldsReady(run[n].stores, id, EntryOfPrepare(c.co.prepare))
      && (run[n].ends[i].accepted || id in c.dev)
  {
    EndOf(c, run, n, i);
    ReadyIsFirst(run[n].ends[i].up);
    PreparedHoldsReady(c, run[n].stores, c.co.parties[i].id, run[n].ends[i]);
  }

  lemma ReadyIsFirst(up: seq<TssP2PMsg>)
    requires UpShape(up) && KeySignReadyMsg in up
    ensures up[0] == KeySignReadyMsg
  {
  }

  // ---- the quorum ----

  /** Past the selection, threshold + 1 distinct parties are in the map, and each of them had sent
      Ready in this session, holds the key session ready, and passed validation unless in dev mode. */
  lemma {:induction false} QuorumIsPrepared(c: SignConfig, run: seq<Sys>, n: nat, p: PartyId)
    requires Run(c, run) && n < |run| && run[n].co.selected && p in run[n].co.ready
    ensures |run[n].co.ready| == M.Quorum(c.co)
    ensures var i := run[n].co.ready[p];
      && i < |run[n].ends| == |c.co.parties| && c.co.parties[i].id == p
      && KeySignReadyMsg in run[n].ends[i].up
      && HoldsReady(run[n].stores, p, EntryOfPrepare(c.co.prepare))
      && (run[n].ends[i].accepted || p in c.dev)
  {
    CoordinatorReachable(c, run, n);
    MT.QuorumSelected(c.co, run[n].co);
    var i := run[n].co.ready[p];
    StreamOfParty(c, run, n, p);
    EndOf(c, run, n, i);
    MS.LegAt(c.co, run[n].co, i);
    InMapSentReady(c.co.prepare, run[n].co.signers, run[n].co.legs[i], run[n].ends[i]);
    StatusGuard(c, run, n, i);
  }

  lemma StreamOfParty(c: SignConfig, run: seq<Sys>, n: nat, p: PartyId)
    requires Run(c, run) && n < |run| && run[n].co.selected && p in run[n].co.ready
    ensures var i := run[n].co.ready[p];
      && i < |run[n].ends| == |run[n].co.legs| == |c.co.parties| && c.co.parties[i].id == p
      && i in run[n].co.ready.Values
  {
    RunInvariant(c, run, n);
    CoordinatorReachable(c, run, n);
    MT.QuorumSelected(c.co, run[n].co);
  }

  /** A stream in the ready map carried the participant's Ready. */
  lemma InMapSentReady(p: KeySignPrepare, signers: seq<PartyID>, l: M.Leg, e: End)
    requires DownInv(p, signers, l, e) && MI.InMap(l.pc)
    ensures KeySignReadyMsg in e.up
  {
    assert e.up[0] == KeySignReadyMsg;
  }

  // ---- where a returned signature comes from ----

  /** The signature is what a local signing run put out at the participant of stream `i`, a selected
      signer; the run was started with the signers, the message and that node's ready save data. */
  ghost predicate SignedAt(c: SignConfig, s: Sys, signature: Signature, i: nat)
    requires i < |s.ends| == |c.co.parties|
  {
    var id, ent := c.co.parties[i].id, EntryOfPrepare(c.co.prepare);
    && id in Ids(s.co.signers)
    && HoldsReady(s.stores, id, ent)
    && s.ends[i].signed == Some(signature)
    && s.ends[i].run == Some(SigningRun(s.co.signers, c.co.prepare.signMsg,
                                        s.stores[id][ent].saveDataJson, s.stores[id][ent].threshold))
  }

  /** Signature provenance: whatever KeySign returns is, verbatim, the output of a local signing run
      at a member of the selected signers, on the request's message and the chosen key session. */
  lemma {:induction false} SignatureProvenance(c: SignConfig, run: seq<Sys>, n: nat)
    requires Run(c, run) && n < |run| && run[n].co.result.Success?
    ensures |run[n].ends| == |c.co.parties|
    ensures exists i: nat :: i < |c.co.parties| && SignedAt(c, run[n], run[n].co.result.value, i)
  {
    CoordinatorReachable(c, run, n);
    MS.SignatureWasReceived(c.co, run[n].co);
    RunInvariant(c, run, n);
    var i, f: KeySignFinish :| 0 <= i < |run[n].co.legs| && i in run[n].co.ready.Values && f.isSuccess
      && f.signature == run[n].co.result.value && M.Got(KeySignFinishMsg(f)) in run[n].co.legs[i].acts;
    EndOf(c, run, n, i);
    MS.LegAt(c.co, run[n].co, i);
    GotInSecondPhase(c.co, run[n].co.signers, run[n].co.legs[i], f);
    SuccessReceived(c, run[n], i, f);
  }

  lemma GotInSecondPhase(c: M.Config, signers: seq<PartyID>, l: M.Leg, f: KeySignFinish)
    requires MI.LegOk(c, signers, l) && MI.InMap(l.pc) && M.Got(KeySignFinishMsg(f)) in l.acts
    ensures M.SecondPhase(l.pc)
  {
  }

  lemma SuccessWasSigned(p: KeySignPrepare, signers: seq<PartyID>, l: M.Leg, e: End, f: KeySignFinish)
    requires DownInv(p, signers, l, e) && SignedInv(e)
    requires M.SecondPhase(l.pc) && M.Got(KeySignFinishMsg(f)) in l.acts && f.isSuccess
    ensures ReadyUp(e) && e.run.Some? && e.signed == Some(f.signature)
  {
    assert FinishUp(e, f);
    assert SignSucceeded(e);
  }

  lemma SuccessReceived(c: SignConfig, s: Sys, i: nat, f: KeySignFinish)
    requires MI.MapInv(c.co, s.co) && MI.QuorumInv(c.co, s.co) && MI.PhaseInv(s.co)
    requires i < |s.ends| == |s.co.legs| == |c.co.parties|
    requires EndInv(c, s.co, s.stores, c.co.parties[i].id, s.co.legs[i], s.ends[i])
    requires M.SecondPhase(s.co.legs[i].pc) && M.Got(KeySignFinishMsg(f)) in s.co.legs[i].acts && f.isSuccess
    ensures SignedAt(c, s, f.signature, i)
  {
    var id, e := c.co.parties[i].id, s.ends[i];
    SuccessWasSigned(c.co.prepare, s.co.signers, s.co.legs[i], e, f);
    RunHasSigners(c, s.co, i, e);
    SelectedIsSigner(c, s.co, i);
    PreparedHoldsReady(c, s.stores, id, e);
  }

  // ---- protocol conformance ----

  datatype Kind = Prepare | Ready | Start | Cancel | Signed | NotSigned | Other

  function KindOf(m: TssP2PMsg): Kind {
    match m
    case KeySignPrepareMsg(_) => Prepare
    case KeySignReadyMsg => Ready
    case KeySignStartMsg(_) => Start
    case KeySignCancelMsg => Cancel
    case KeySignFinishMsg(f) => if f.isSuccess then Signed else NotSigned
    case _ => Other
  }

  /** The control stream's possible histories. A failure may cross Prepare, Start or Cancel under
      way, and only a started participant reports success. */
  predicate Conforms(kinds: seq<Kind>) {
    || kinds <= [Prepare, Ready, Start, Signed]
    || kinds <= [Prepare, Ready, Start, NotSigned]
    || kinds <= [Prepare, Ready, Cancel, NotSigned]
    || kinds <= [Prepare, Ready, NotSigned, Start]
    || kinds <= [Prepare, Ready, NotSigned, Cancel]
    || kinds <= [Prepare, NotSigned]
    || kinds <= [NotSigned, Prepare]
  }

  /** Whatever the coordinator may read next on a stream is what its goroutine handles, and a stream
      to the node itself, a pair of channels of capacity ten, never fills. */
  predicate CoordinatorExpects(l: M.Leg, e: End) {
    && e.upRead <= |e.up| <= 2 && |e.down| <= 2
    && (l.pc.AwaitReady? && e.upRead < |e.up| ==> KindOf(e.up[e.upRead]) in {Ready, NotSigned})
    && (l.pc.AwaitFinish? && e.upRead < |e.up| ==> KindOf(e.up[e.upRead]) in {Signed, NotSigned})
  }

  /** Whatever the participant may read next is what its handler handles: a Start names it among the
      signers, and a session message comes from one of them. */
  predicate ParticipantExpects(p: KeySignPrepare, signers: seq<PartyID>, id: PartyId, e: End) {
    && e.downRead <= |e.down|
    && (e.handler.HearPrepare? && e.downRead < |e.down| ==> e.down[e.downRead] == KeySignPrepareMsg(p))
    && (e.handler.HearStart? && e.downRead < |e.down| ==>
          && e.prepare.Some? && e.data.Some?
          && e.down[e.downRead] in {KeySignCancelMsg, KeySignStartMsg(signers)}
          && (e.down[e.downRead] == KeySignStartMsg(signers) ==> id in Ids(signers)))
    && (e.handler.Sign? ==>
          && e.run.Some? && e.run.value.signers == signers && id in Ids(signers)
          && forall m :: m in e.mail && m.msg.ProcessUpdate? ==> m.msg.fromPartyId in Ids(signers))
  }

  /** Protocol conformance: every control stream keeps to the protocol, no end ever reads a message
      of a kind it does not expect, and no event loop meets an unknown sender or misses itself. */
  lemma {:induction false} Conformance(c: SignConfig, run: seq<Sys>, n: nat, i: nat)
    requires Run(c, run) && n < |run| && i < |run[n].ends|
    ensures |run[n].ends| == |run[n].co.legs| == |c.co.parties|
    ensures Conforms(Each(KindOf, run[n].ends[i].log))
    ensures CoordinatorExpects(run[n].co.legs[i], run[n].ends[i])
    ensures ParticipantExpects(c.co.prepare, run[n].co.signers, c.co.parties[i].id, run[n].ends[i])
  {
    RunInvariant(c, run, n);
    EndOf(c, run, n, i);
    var s := run[n];
    var p, id := c.co.prepare, c.co.parties[i].id;
    SuccessAfterStart(c, p, id, s.ends[i]);
    LogConforms(p, s.ends[i]);
    LegExpects(c, p, s.co.signers, id, s.co.legs[i], s.ends[i]);
    if |s.ends[i].down| == 2 && s.ends[i].down[1].KeySignStartMsg? {
      StartedIsSigner(c, s.co, i, s.ends[i]);
    }
    EndExpects(c, p, s.co.selected, s.co.signers, id, s.ends[i]);
  }

  /** Only a participant that was told to start reports a success. */
  lemma SuccessAfterStart(c: SignConfig, p: KeySignPrepare, id: PartyId, e: End)
    requires UpInv(c, p, id, e)
    ensures UpShape(e.up)
    ensures SignSucceeded(e) ==> |e.down| == 2 && e.down[1].KeySignStartMsg?
  {
  }

  lemma LogConforms(p: KeySignPrepare, e: End)
    requires DownShape(p, e) && UpShape(e.up) && LogInv(e)
    requires SignSucceeded(e) ==> |e.down| == 2 && e.down[1].KeySignStartMsg?
    ensures Conforms(Each(KindOf, e.log))
  {
    if |e.down| == 2 {
      FullLogConforms(p, e);
    } else if |e.up| == 2 {
      assert e.up == [e.up[0], e.up[1]];
    }
  }

  lemma FullLogConforms(p: KeySignPrepare, e: End)
    requires DownShape(p, e) && UpShape(e.up) && LogInv(e) && |e.down| == 2
    requires SignSucceeded(e) ==> e.down[1].KeySignStartMsg?
    ensures Conforms(Each(KindOf, e.log))
  {
    if |e.up| == 1 {
      assert e.log == [e.down[0], e.up[0], e.down[1]];
    } else if e.log == [e.down[0], e.up[0], e.down[1]] + e.up[1..] {
      assert e.log == [e.down[0], e.up[0], e.down[1], e.up[1]];
    } else {
      assert e.log == [e.down[0], e.up[0], e.up[1], e.down[1]];
    }
  }

  lemma LegExpects(c: SignConfig, p: KeySignPrepare, signers: seq<PartyID>, id: PartyId, l: M.Leg, e: End)
    requires DownInv(p, signers, l, e) && UpInv(c, p, id, e)
    ensures CoordinatorExpects(l, e)
  {
  }

  lemma StartedIsSigner(c: SignConfig, co: M.State, i: nat, e: End)
    requires MI.MapInv(c.co, co) && MI.QuorumInv(c.co, co) && MI.PhaseInv(co) && i < |co.legs| == |c.co.parties|
    requires DownInv(c.co.prepare, co.signers, co.legs[i], e)
    requires |e.down| == 2 && e.down[1].KeySignStartMsg?
    ensures c.co.parties[i].id in Ids(co.signers) && e.down[1].signPartyId == co.signers
  {
    StartMeansSecond(c.co.prepare, co.signers, co.legs[i], e);
    SecondMeansSelected(co, i);
    SelectedIsSigner(c, co, i);
  }

  lemma EndExpects(c: SignConfig, p: KeySignPrepare, selected: bool, signers: seq<PartyID>, id: PartyId, e: End)
    requires DownShape(p, e) && UpInv(c, p, id, e) && RoutingInv(selected, signers, id, e)
    requires |e.down| == 2 && e.down[1].KeySignStartMsg? ==> id in Ids(signers) && e.down[1].signPartyId == signers
    ensures ParticipantExpects(p, signers, id, e)
  {
  }

  // ---- what the signers are ----

  lemma PhaseOf(c: SignConfig, run: seq<Sys>, n: nat)
    requires Run(c, run) && n < |run|
    ensures MI.PhaseInv(run[n].co)
  {
    RunInvariant(c, run, n);
  }

  lemma DistinctSigners(c: M.Config, co: M.State)
    requires M.Reachable(c, co) && co.selected && Distinct(Ids(c.parties))
    ensures Distinct(Ids(co.signers))
  {
    MT.QuorumSelected(c, co);
    MT.SignersDistinctIff(c.parties, co.ready.Keys);
    assert forall i, j :: 0 <= i < j < |c.parties| ==> Ids(c.parties)[i] != Ids(c.parties)[j];
  }

  // ---- from key generation to signing ----

  /** After KeyGen has succeeded, a signing of that key started at any listed party, whenever, works
      on that session: it has its parties and threshold, and every listed party holds the entry it
      names ready. Its selection can never be stuck exactly when the threshold is below the count. */
  lemma {:induction false} SigningAfterKeyGen(gc: G.Config, run: seq<G.State>, n: nat, m: nat, sid: SessionId,
                                              pubkey: Bytes, k: nat, found: Option<KeyData>, request: KeySignRequest,
                                              sessionId: SessionId, c: SignConfig)
    requires G.Run(gc, run) && n <= m < |run| && GT.SucceededAt(run[n], sid, pubkey)
    requires var req := run[n].sessions[sid].req;
      && k < |req.parties| && req.parties[k].id in run[m].stores
      && GT.NoExtendingRequest(run[m], req.keyId)
      && LatestReady(run[m].stores[req.parties[k].id], req.keyId, found)
      && request.keyId == req.keyId && (found.Some? ==> c.co == SetUp(request, sessionId, found.value))
    ensures var req := run[n].sessions[sid].req;
      && EntryOfPrepare(c.co.prepare) == EntryId(req.keyId, sid)
      && c.co.prepare == KeySignPrepare(request.signId, sessionId, req.keyId, sid, request.signMsg)
      && c.co.parties == req.parties && c.co.threshold == req.threshold
      && Distinct(Ids(c.co.parties))
      && (forall j: nat :: j < |c.co.parties| ==>
            HoldsReady(run[m].stores, c.co.parties[j].id, EntryOfPrepare(c.co.prepare)))
      && ((forall s :: M.Reachable(c.co, s) && s.main.Selecting? ==> MT.SelectEnabled(s))
          <==> req.threshold as int < |req.parties|)
  {
    GT.StableLookup(gc, run, n, m, sid, pubkey, k, found);
    GT.CommitAgreement(gc, run, n, m, sid, pubkey);
    var req := run[n].sessions[sid].req;
    forall j: nat | j < |req.parties|
      ensures HoldsReady(run[m].stores, req.parties[j].id, EntryId(req.keyId, sid))
    {
      assert GT.HoldsSomeKey(run[m], sid, req, j);
    }
    GT.SuccessIsDistinct(gc, run, n, sid, pubkey);
    DistinctCount(Ids(req.parties));
    MT.SelectionNeverStuckIff(c.co);
  }

  /** Over a session the nodes' ready entries never change. */
  lemma {:induction false} ReadyStays(c: SignConfig, run: seq<Sys>, n: nat, id: PartyId, ent: EntryId)
    requires Run(c, run) && n < |run| && HoldsReady(run[0].stores, id, ent)
    ensures HoldsReady(run[n].stores, id, ent) && run[n].stores[id][ent] == run[0].stores[id][ent]
  {
    if n > 0 {
      ReadyStays(c, run, n - 1, id, ent);
      StoreOf(c, run, n - 1, id);
      assert Next(c, run[n - 1], run[n - 1 + 1]);
      NextKeepsReady(c, run[n - 1], run[n], id, ent);
    }
  }

  lemma StoreOf(c: SignConfig, run: seq<Sys>, n: nat, id: PartyId)
    requires Run(c, run) && n < |run| && id in run[n].stores
    ensures StoreInv(run[n].stores[id])
  {
    RunInvariant(c, run, n);
  }

  lemma NextKeepsReady(c: SignConfig, s: Sys, s': Sys, id: PartyId, ent: EntryId)
    requires Next(c, s, s') && HoldsReady(s.stores, id, ent) && StoreInv(s.stores[id])
    ensures HoldsReady(s'.stores, id, ent) && s'.stores[id][ent] == s.stores[id][ent]
  {
    var step :| NextStep(c, s, s', step);
    if step.StoreMoves? && step.n == id {
      NextMovesEntry(s.stores[id], s'.stores[id], ent);
    }
  }

  /** A handler that looks the key up finds this ready entry and goes on to the validator. */
  ghost predicate LookupsSucceed(c: SignConfig, s: Sys) {
    forall i: nat, s' ::
      i < |s.ends| == |c.co.parties| && s.ends[i].handler.Lookup? && NextStep(c, s, s', HandlerMoves(i)) ==>
      && HoldsReady(s.stores, c.co.parties[i].id, EntryOfPrepare(c.co.prepare))
      && s'.ends[i].handler.Validate?
      && s'.ends[i].data == Some(s.stores[c.co.parties[i].id][EntryOfPrepare(c.co.prepare)])
  }

  /** In every state of a signing session that starts on the stores that a successful KeyGen left, at
      any later time, every listed party holds the session's entry ready, and no handler fails to find
      it, whatever key generation does meanwhile. */
  lemma {:induction false} SigningRunAfterKeyGen(gc: G.Config, run: seq<G.State>, n: nat, m: nat, sid: SessionId,
                                                 pubkey: Bytes, k: nat, found: Option<KeyData>, request: KeySignRequest,
                                                 sessionId: SessionId, c: SignConfig, signing: seq<Sys>, t: nat)
    requires G.Run(gc, run) && n <= m < |run| && GT.SucceededAt(run[n], sid, pubkey)
    requires var req := run[n].sessions[sid].req;
      && k < |req.parties| && req.parties[k].id in run[m].stores
      && GT.NoExtendingRequest(run[m], req.keyId)
      && LatestReady(run[m].stores[req.parties[k].id], req.keyId, found)
      && request.keyId == req.keyId && (found.Some? ==> c.co == SetUp(request, sessionId, found.value))
    requires Run(c, signing) && signing[0].stores == run[m].stores && t < |signing|
    ensures forall j: nat :: j < |c.co.parties| ==>
      HoldsReady(signing[t].stores, c.co.parties[j].id, EntryOfPrepare(c.co.prepare))
    ensures LookupsSucceed(c, signing[t])
  {
    SigningAfterKeyGen(gc, run, n, m, sid, pubkey, k, found, request, sessionId, c);
    forall j: nat | j < |c.co.parties|
      ensures HoldsReady(signing[t].stores, c.co.parties[j].id, EntryOfPrepare(c.co.prepare))
    {
      ReadyStays(c, signing, t, c.co.parties[j].id, EntryOfPrepare(c.co.prepare));
    }
    HoldersLookup(c, signing, t);
  }

  lemma HoldersLookup(c: SignConfig, run: seq<Sys>, n: nat)
    requires Run(c, run) && n < |run|
    requires forall j: nat :: j < |c.co.parties| ==>
      HoldsReady(run[n].stores, c.co.parties[j].id, EntryOfPrepare(c.co.prepare))
    ensures LookupsSucceed(c, run[n])
  {
    var s := run[n];
    forall i: nat, s' |
      i < |s.ends| == |c.co.parties| && s.ends[i].handler.Lookup? && NextStep(c, s, s', HandlerMoves(i))
      ensures s'.ends[i].handler.Validate?
      ensures s'.ends[i].data == Some(s.stores[c.co.parties[i].id][EntryOfPrepare(c.co.prepare)])
    {
      EndOf(c, run, n, i);
      LooksUpNamed(c, c.co.parties[i].id, s.ends[i]);
    }
  }

  lemma LooksUpNamed(c: SignConfig, id: PartyId, e: End)
    requires UpInv(c, c.co.prepare, id, e) && e.handler.Lookup?
    ensures e.prepare == Some(c.co.prepare)
  {
  }
}
