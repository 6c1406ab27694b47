/** The inductive invariant of a signing session, on top of the coordinator's own. */
module KeySignSystemInvariant {
  import opened Wrappers
  import opened TssTypes
  import opened KeyStore
  import opened Routing
  import opened Mailing
  import opened KeySignSystem
  import StreamLog
  import M = KeySignModel
  import MI = KeySignInvariant
  import MT = KeySignTheorems

  // ---- one stream ----

  predicate ReadyUp(e: End) {
    StreamLog.ReadySent(KeySignReadyMsg, e.up)
  }

  predicate FinishUp(e: End, f: KeySignFinish) {
    |e.up| == 2 && e.up[1] == KeySignFinishMsg(f)
  }

  predicate SignFailed(m: TssP2PMsg) {
    StreamLog.FailureOf(KeySignReadyMsg, m)
  }

  predicate SignSucceeded(e: End) {
    |e.up| == 2 && e.up[1].KeySignFinishMsg? && e.up[1].keySignFinish.isSuccess
  }

  /** Nothing or one message has gone down. */
  predicate AtMostPrepare(e: End) {
    |e.down| <= 1
  }

  predicate HeardReady(e: End) {
    |e.down| == 1 && e.upRead == 1 && ReadyUp(e)
  }

  predicate DownShape(p: KeySignPrepare, e: End) {
    && e.upRead <= |e.up| && |e.down| <= 2
    && (|e.down| >= 1 ==> e.down[0] == KeySignPrepareMsg(p))
    && (|e.down| == 2 ==> ReadyUp(e) && (e.down[1].KeySignStartMsg? || e.down[1].KeySignCancelMsg?))
  }

  /** What the second phase of a goroutine received is what the participant sent. */
  ghost predicate GotTruly(l: M.Leg, e: End) {
    M.SecondPhase(l.pc) ==>
      forall f :: M.Got(KeySignFinishMsg(f)) in l.acts ==> FinishUp(e, f)
  }

  /** The coordinator's end, by where its goroutine is. */
  ghost predicate DownInv(p: KeySignPrepare, signers: seq<PartyID>, l: M.Leg, e: End) {
    && DownShape(p, e)
    && GotTruly(l, e)
    && match l.pc
       case Begin => e.down == [] && e.up == [] && e.upRead == 0 && e.handler.Absent?
       case DialError(_) => e.down == [] && e.up == [] && e.upRead == 0 && e.handler.Absent?
       case SendPrepare => e.down == [] && e.upRead == 0
       case AwaitReady => |e.down| == 1 && e.upRead == 0
       case PushReady => HeardReady(e)
       case Abandoned => HeardReady(e)
       case Queued => HeardReady(e)
       case TakenToCancel => HeardReady(e)
       case Chosen => HeardReady(e)
       case Overwritten => HeardReady(e)
       case Begin2 => HeardReady(e)
       case RejectError(_) => AtMostPrepare(e)
       case PrepareError(_) => AtMostPrepare(e)
       case CloseUnready => AtMostPrepare(e)
       case Gone => AtMostPrepare(e)
       case CancelSent => ReadyUp(e) && (|e.down| == 2 ==> e.down[1] == KeySignCancelMsg)
       case Cancelled => ReadyUp(e) && (|e.down| == 2 ==> e.down[1] == KeySignCancelMsg)
       case AwaitFinish => |e.down| == 2 && e.down[1] == KeySignStartMsg(signers) && e.upRead == 1
       case PushFinish(f) =>
         |e.down| == 2 && e.down[1] == KeySignStartMsg(signers) && e.upRead == 2 && FinishUp(e, f)
       case PushError2(_) => ReadyUp(e) && (|e.down| == 2 ==> e.down[1] == KeySignStartMsg(signers))
       case Left2 => ReadyUp(e) && (|e.down| == 2 ==> e.down[1] == KeySignStartMsg(signers))
  }

  predicate UpShape(up: seq<TssP2PMsg>) {
    StreamLog.UpShape(KeySignReadyMsg, up)
  }

  predicate LogInv(e: End) {
    StreamLog.InOrder(KeySignReadyMsg, e.down, e.up, e.log)
  }

  /** A participant that sent Ready had found key data with save data and passed validation. */
  predicate Prepared(c: SignConfig, p: KeySignPrepare, id: PartyId, e: End) {
    && e.prepare == Some(p) && e.downRead > 0
    && e.data.Some? && e.data.value.saveDataJson != []
    && (e.accepted || id in c.dev)
  }

  /** A local signing run was started by the Start message, on the data that was looked up. */
  predicate RunInv(p: KeySignPrepare, e: End) {
    e.run.Some? ==>
      && ReadyUp(e) && e.downRead == 2 && |e.down| == 2 && e.data.Some?
      && e.down[1] == KeySignStartMsg(e.run.value.signers)
      && e.run.value == SigningRun(e.run.value.signers, p.signMsg, e.data.value.saveDataJson, e.data.value.threshold)
  }

  /** A success, sent or about to be, carries what the local run put out. */
  predicate SignedInv(e: End) {
    && (e.signed.Some? ==> e.run.Some?)
    && (e.handler.TellFinish? && e.handler.finish.isSuccess ==>
          e.signed == Some(e.handler.finish.signature) && e.run.Some?)
    && (SignSucceeded(e) ==> e.signed == Some(e.up[1].keySignFinish.signature) && e.run.Some?)
  }

  predicate UpInv(c: SignConfig, p: KeySignPrepare, id: PartyId, e: End) {
    && e.downRead <= |e.down| && UpShape(e.up)
    && (e.prepare.Some? ==> e.prepare == Some(p))
    && (ReadyUp(e) ==> Prepared(c, p, id, e))
    && RunInv(p, e) && SignedInv(e)
    && match e.handler
       case Absent => e.up == [] && e.downRead == 0 && e.prepare.None? && e.data.None?
       case HearPrepare => e.up == [] && e.downRead == 0 && e.prepare.None? && e.data.None?
       case Lookup => e.up == [] && e.downRead == 1 && e.prepare.Some?
       case Validate => e.up == [] && e.downRead == 1 && e.prepare.Some? && e.data.Some?
       case Parse =>
         e.up == [] && e.downRead == 1 && e.prepare.Some? && e.data.Some? && (e.accepted || id in c.dev)
       case TellReady =>
         && e.up == [] && e.downRead == 1 && e.prepare.Some? && e.data.Some? && (e.accepted || id in c.dev)
         && e.data.value.saveDataJson != []
       case HearStart => e.up == [KeySignReadyMsg] && e.downRead == 1
       case Sign => e.up == [KeySignReadyMsg] && e.run.Some? && e.signed.None?
       case Broadcast(_, _, _, _) => e.up == [KeySignReadyMsg] && e.run.Some? && e.signed.None?
       case TellFinish(_) => |e.up| <= 1 && (e.up != [] ==> ReadyUp(e))
       case Done => true
  }

  /** The data that was looked up is the node's entry; once ready it still is. */
  ghost predicate DataInv(stores: map<PartyId, Store>, ent: EntryId, id: PartyId, e: End) {
    && (e.handler.Absent? || id in stores)
    && (e.data.Some? ==>
          && id in stores && EntryOk(ent, e.data.value) && ent in stores[id]
          && (e.data.value.status == StatusReady ==> stores[id][ent] == e.data.value))
  }

  ghost predicate RoutingInv(selected: bool, signers: seq<PartyID>, id: PartyId, e: End) {
    && (e.mail != multiset{} ==> selected)
    && (forall m :: m in e.mail && m.msg.ProcessUpdate? ==> m.msg.fromPartyId in Ids(signers))
    && (e.handler.Broadcast? && e.run.Some? && e.handler.broadcast ==>
          e.handler.sent + e.handler.to == Others(e.run.value.signers, id))
  }

  ghost predicate EndInv(c: SignConfig, co: M.State, stores: map<PartyId, Store>, id: PartyId, l: M.Leg, e: End) {
    && DownInv(c.co.prepare, co.signers, l, e)
    && LogInv(e)
    && UpInv(c, c.co.prepare, id, e)
    && DataInv(stores, EntryOfPrepare(c.co.prepare), id, e)
    && RoutingInv(co.selected, co.signers, id, e)
  }

  ghost predicate EndsInv(c: SignConfig, s: Sys) {
    && |s.ends| == |s.co.legs| == |c.co.parties|
    && forall i :: 0 <= i < |s.ends| ==> EndInv(c, s.co, s.stores, c.co.parties[i].id, s.co.legs[i], s.ends[i])
  }

  ghost predicate Inv(c: SignConfig, s: Sys) {
    && MI.Inv(c.co, s.co)
    && s.stores.Keys == c.nodes
    && (forall n :: n in s.stores ==> StoreInv(s.stores[n]))
    && EndsInv(c, s)
  }

  lemma InitKeeps(c: SignConfig, s: Sys)
    requires Init(c, s)
    ensures Inv(c, s)
  {
    MI.InitInv(c.co);
    forall i | 0 <= i < |s.ends| ensures EndInv(c, s.co, s.stores, c.co.parties[i].id, s.co.legs[i], s.ends[i]) {
      NewEndInv(c, s.co, s.stores, c.co.parties[i].id, s.co.legs[i]);
    }
  }

  lemma NewEndInv(c: SignConfig, co: M.State, stores: map<PartyId, Store>, id: PartyId, l: M.Leg)
    requires l == M.Leg(M.Begin, [], [])
    ensures EndInv(c, co, stores, id, l, NewEnd())
  {
  }

  // ---- the participant's steps ----

  /** Giving up, and Start or Cancel, while waiting for Start. */
  lemma HearingStartKeepsUp(c: SignConfig, p: KeySignPrepare, id: PartyId, st: Store, e: End, e': End)
    requires DownShape(p, e) && UpInv(c, p, id, e) && SignHandlerStep(c, id, st, e, e')
    requires e.handler.HearStart?
    ensures UpInv(c, p, id, e')
  {
  }

  /** The steps up to Ready. */
  lemma PreparingKeepsUp(c: SignConfig, p: KeySignPrepare, id: PartyId, st: Store, e: End, e': End)
    requires DownShape(p, e) && UpInv(c, p, id, e) && SignHandlerStep(c, id, st, e, e')
    requires
      || e.handler.HearPrepare? || e.handler.Lookup? || e.handler.Validate?
      || e.handler.Parse? || e.handler.TellReady?
    ensures UpInv(c, p, id, e')
  {
  }

  lemma HandlerKeepsUp(c: SignConfig, p: KeySignPrepare, id: PartyId, st: Store, e: End, e': End)
    requires DownShape(p, e) && UpInv(c, p, id, e) && SignHandlerStep(c, id, st, e, e')
    ensures UpInv(c, p, id, e')
  {
    match e.handler {
      case HearStart => HearingStartKeepsUp(c, p, id, st, e, e');
      case Sign =>
      case Broadcast(_, _, _, _) =>
      case TellFinish(_) =>
      case _ => PreparingKeepsUp(c, p, id, st, e, e');
    }
  }

  /** What a handler's step may change of the coordinator's side. */
  predicate SameCoordinator(e: End, e': End) {
    && e'.down == e.down && e'.upRead == e.upRead && e.up <= e'.up && |e'.up| <= 2
    && (|e'.up| == |e.up| || !e.handler.Absent?)
    && (e.handler.Absent? ==> e'.handler.Absent?)
  }

  lemma SameCoordinatorKeepsDown(p: KeySignPrepare, signers: seq<PartyID>, l: M.Leg, e: End, e': End)
    requires DownInv(p, signers, l, e) && SameCoordinator(e, e')
    ensures DownInv(p, signers, l, e')
  {
  }

  lemma HandlerKeepsCoordinator(c: SignConfig, p: KeySignPrepare, id: PartyId, st: Store, e: End, e': End)
    requires UpInv(c, p, id, e) && SignHandlerStep(c, id, st, e, e')
    ensures SameCoordinator(e, e') && e'.mail == e.mail
  {
  }

  lemma HandlerSends(c: SignConfig, p: KeySignPrepare, id: PartyId, st: Store, e: End, e': End) returns (m: TssP2PMsg)
    requires DownShape(p, e) && UpInv(c, p, id, e) && SignHandlerStep(c, id, st, e, e')
    ensures e'.down == e.down
    ensures (e'.up == e.up && e'.log == e.log) || (e'.up == e.up + [m] && e'.log == e.log + [m])
    ensures e'.up != e.up && m == KeySignReadyMsg ==> e.up == [] && |e.down| > 0
    ensures e'.up != e.up && m != KeySignReadyMsg ==>
      && m.KeySignFinishMsg? && (e.up == [] || e.up == [KeySignReadyMsg])
      && (SignFailed(m) || (ReadyUp(e) && |e.down| == 2))
  {
    m := if e.handler.TellFinish? then KeySignFinishMsg(e.handler.finish) else KeySignReadyMsg;
  }

  lemma HandlerKeepsLog(c: SignConfig, p: KeySignPrepare, id: PartyId, st: Store, e: End, e': End)
    requires DownShape(p, e) && UpInv(c, p, id, e) && LogInv(e) && SignHandlerStep(c, id, st, e, e')
    ensures LogInv(e')
  {
    var m := HandlerSends(c, p, id, st, e, e');
    if e'.up != e.up {
      StreamLog.SendingUpKeepsOrder(KeySignReadyMsg, e.down, e.up, e.log, m);
    }
  }

  lemma HandlerKeepsData(c: SignConfig, p: KeySignPrepare, stores: map<PartyId, Store>, id: PartyId, e: End, e': End)
    requires id in stores && StoreInv(stores[id])
    requires UpInv(c, p, id, e) && DataInv(stores, EntryOfPrepare(p), id, e)
    requires SignHandlerStep(c, id, stores[id], e, e')
    ensures DataInv(stores, EntryOfPrepare(p), id, e')
  {
  }

  lemma HandlerKeepsRouting(c: SignConfig, p: KeySignPrepare, selected: bool, signers: seq<PartyID>, id: PartyId,
                            st: Store, e: End, e': End)
    requires UpInv(c, p, id, e) && RoutingInv(selected, signers, id, e) && SignHandlerStep(c, id, st, e, e')
    ensures RoutingInv(selected, signers, id, e')
  {
  }

  lemma HandlerKeepsEnd(c: SignConfig, co: M.State, stores: map<PartyId, Store>, id: PartyId, l: M.Leg, e: End, e': End)
    requires id in stores && StoreInv(stores[id])
    requires EndInv(c, co, stores, id, l, e) && SignHandlerStep(c, id, stores[id], e, e')
    ensures EndInv(c, co, stores, id, l, e')
  {
    var p := c.co.prepare;
    HandlerKeepsUp(c, p, id, stores[id], e, e');
    HandlerKeepsCoordinator(c, p, id, stores[id], e, e');
    SameCoordinatorKeepsDown(p, co.signers, l, e, e');
    HandlerKeepsLog(c, p, id, stores[id], e, e');
    HandlerKeepsData(c, p, stores, id, e, e');
    HandlerKeepsRouting(c, p, co.selected, co.signers, id, stores[id], e, e');
  }

  lemma ReadingKeepsEnd(c: SignConfig, co: M.State, stores: map<PartyId, Store>, id: PartyId, l: M.Leg,
                        e: End, e': End, m: Mail)
    requires EndInv(c, co, stores, id, l, e) && SignReads(e, e', m)
    ensures EndInv(c, co, stores, id, l, e')
  {
    SameCoordinatorKeepsDown(c.co.prepare, co.signers, l, e, e');
  }

  /** A Start on its way was sent by the second phase, with the coordinator's signers. */
  lemma StartMeansSecond(p: KeySignPrepare, signers: seq<PartyID>, l: M.Leg, e: End)
    requires DownInv(p, signers, l, e) && |e.down| == 2 && e.down[1].KeySignStartMsg?
    ensures M.SecondPhase(l.pc) && e.down[1].signPartyId == signers
  {
  }

  lemma SecondMeansSelected(co: M.State, i: nat)
    requires MI.PhaseInv(co) && i < |co.legs| && M.SecondPhase(co.legs[i].pc)
    ensures co.selected
  {
  }

  /** While a handler signs, the signers it was given are the coordinator's. */
  lemma RunHasSigners(c: SignConfig, co: M.State, i: nat, e: End)
    requires MI.PhaseInv(co) && i < |co.legs|
    requires DownInv(c.co.prepare, co.signers, co.legs[i], e) && RunInv(c.co.prepare, e) && e.run.Some?
    ensures e.run.value.signers == co.signers && co.selected && M.SecondPhase(co.legs[i].pc)
  {
    StartMeansSecond(c.co.prepare, co.signers, co.legs[i], e);
    SecondMeansSelected(co, i);
  }

  lemma SendingKeepsEnd(c: SignConfig, co: M.State, stores: map<PartyId, Store>, i: nat, id: PartyId, toId: PartyId,
                        l: M.Leg, e: End, e': End, t: End, t': End)
    requires EndInv(c, co, stores, id, l, e) && SignMails(i, id, toId, e, e', t, t')
    ensures EndInv(c, co, stores, id, l, e') && e.run.Some?
  {
    SameCoordinatorKeepsDown(c.co.prepare, co.signers, l, e, e');
  }

  lemma MailedKeepsEnd(c: SignConfig, co: M.State, stores: map<PartyId, Store>, id: PartyId, l: M.Leg,
                       e: End, e': End, m: Mail)
    requires EndInv(c, co, stores, id, l, e) && co.selected
    requires m.msg.ProcessUpdate? && m.msg.fromPartyId in Ids(co.signers)
    requires e' == Gets(e, m)
    ensures EndInv(c, co, stores, id, l, e')
  {
    SameCoordinatorKeepsDown(c.co.prepare, co.signers, l, e, e');
  }

  // ---- the stores move ----

  lemma StoreKeepsData(stores: map<PartyId, Store>, n: PartyId, st': Store, ent: EntryId, id: PartyId, e: End)
    requires n in stores && StoreInv(stores[n]) && StoreNext(stores[n], st') && DataInv(stores, ent, id, e)
    ensures DataInv(stores[n := st'], ent, id, e) && StoreInv(st')
  {
    var op, ok :| Apply(stores[n], op, ok, st');
    OpKeepsInv(stores[n], op, ok, st');
    assert EntryStep(stores[n], st', ent);
  }

  // ---- the coordinator's steps ----

  /** Steps of the coordinator that do nothing on the stream but close it. */
  predicate Steady(l: M.Leg, l': M.Leg) {
    && (l'.acts == l.acts || l'.acts == l.acts + [M.Closed])
    && (|| l'.pc == l.pc
        || ((l.pc.Begin? || l.pc.DialError? || l.pc.CloseUnready?) && l'.pc.Gone?)
        || ((l.pc.RejectError? || l.pc.PrepareError?) && l'.pc.CloseUnready?)
        || (l.pc.PushReady? && (l'.pc.Abandoned? || l'.pc.Queued?))
        || (l.pc.Queued? && (l'.pc.Chosen? || l'.pc.Begin2? || l'.pc.TakenToCancel?))
        || (l.pc.Chosen? && (l'.pc.Overwritten? || l'.pc.Begin2?))
        || ((l.pc.Begin2? || l.pc.PushError2? || l.pc.PushFinish?) && l'.pc.Left2?)
        || (l.pc.CancelSent? && l'.pc.Cancelled?))
  }

  lemma SteadyKeepsDown(c: M.Config, signers: seq<PartyID>, signers': seq<PartyID>, l: M.Leg, l': M.Leg, e: End)
    requires DownInv(c.prepare, signers, l, e) && Steady(l, l') && MI.LegOk(c, signers, l)
    requires signers' == signers || !M.SecondPhase(l.pc)
    ensures DownInv(c.prepare, signers', l', e)
  {
    if M.SecondPhase(l'.pc) {
      forall f | M.Got(KeySignFinishMsg(f)) in l'.acts ensures FinishUp(e, f) {
        assert M.Got(KeySignFinishMsg(f)) in l.acts;
      }
    }
  }

  /** What a network step leaves alone at the far end. */
  predicate SameParticipant(c: SignConfig, id: PartyId, e: End, e': End) {
    && e'.up == e.up && e.down <= e'.down
    && e' == e.(handler := e'.handler, down := e'.down, log := e'.log, upRead := e'.upRead)
    && (e'.handler == e.handler || (e.handler.Absent? && e'.handler.HearPrepare? && id in c.nodes))
  }

  lemma MoveKeepsGot(c: SignConfig, id: PartyId, signers: seq<PartyID>, ctxDone: bool, l: M.Leg, l': M.Leg, net: M.Net,
                     e: End, e': End)
    requires GotTruly(l, e) && UpShape(e.up) && (l.pc.AwaitFinish? ==> e.upRead == 1)
    requires M.Moves(c.co, signers, ctxDone, l, l', net) && NetEffect(c, id, signers, ctxDone, l.pc, net, e, e')
    ensures GotTruly(l', e')
  {
    if M.SecondPhase(l'.pc) {
      forall f | M.Got(KeySignFinishMsg(f)) in l'.acts ensures FinishUp(e', f) {
        if M.Got(KeySignFinishMsg(f)) !in l.acts {
          assert l.pc.AwaitFinish? && net == M.Delivers(KeySignFinishMsg(f));
        }
      }
    }
  }

  lemma MoveKeepsDown(c: SignConfig, id: PartyId, signers: seq<PartyID>, ctxDone: bool, l: M.Leg, l': M.Leg, net: M.Net,
                      e: End, e': End)
    requires DownInv(c.co.prepare, signers, l, e) && UpShape(e.up) && MI.LegOk(c.co, signers, l)
    requires M.Moves(c.co, signers, ctxDone, l, l', net) && NetEffect(c, id, signers, ctxDone, l.pc, net, e, e')
    ensures DownInv(c.co.prepare, signers, l', e')
  {
    MoveKeepsGot(c, id, signers, ctxDone, l, l', net, e, e');
  }

  lemma MoveKeepsParticipant(c: SignConfig, id: PartyId, signers: seq<PartyID>, ctxDone: bool, l: M.Leg, net: M.Net,
                             e: End, e': End)
    requires DownInv(c.co.prepare, signers, l, e) && NetEffect(c, id, signers, ctxDone, l.pc, net, e, e')
    ensures SameParticipant(c, id, e, e')
  {
  }

  lemma MoveKeepsLog(c: SignConfig, id: PartyId, signers: seq<PartyID>, ctxDone: bool, l: M.Leg, net: M.Net,
                     e: End, e': End)
    requires DownInv(c.co.prepare, signers, l, e) && UpShape(e.up) && LogInv(e)
    requires NetEffect(c, id, signers, ctxDone, l.pc, net, e, e')
    ensures LogInv(e')
  {
    if l.pc.SendPrepare? {
      StreamLog.SendingDownKeepsOrder(KeySignReadyMsg, e.down, e.up, e.log, KeySignPrepareMsg(c.co.prepare));
    } else if l.pc.Begin2? {
      StreamLog.SendingDownKeepsOrder(KeySignReadyMsg, e.down, e.up, e.log, KeySignStartMsg(signers));
    }
  }

  lemma SameParticipantKeepsUp(c: SignConfig, p: KeySignPrepare, id: PartyId, e: End, e': End)
    requires UpInv(c, p, id, e) && SameParticipant(c, id, e, e') && |e'.down| <= 2
    ensures UpInv(c, p, id, e')
  {
  }

  lemma SameParticipantKeepsRest(c: SignConfig, stores: map<PartyId, Store>, ent: EntryId, selected: bool,
                                 signers: seq<PartyID>, id: PartyId, e: End, e': End)
    requires stores.Keys == c.nodes && SameParticipant(c, id, e, e')
    requires DataInv(stores, ent, id, e) && RoutingInv(selected, signers, id, e)
    ensures DataInv(stores, ent, id, e') && RoutingInv(selected, signers, id, e')
  {
  }

  lemma MoveKeepsEnd(c: SignConfig, co: M.State, stores: map<PartyId, Store>, id: PartyId, l: M.Leg, l': M.Leg,
                     net: M.Net, e: End, e': End)
    requires stores.Keys == c.nodes && MI.LegOk(c.co, co.signers, l)
    requires EndInv(c, co, stores, id, l, e)
    requires M.Moves(c.co, co.signers, co.ctxDone, l, l', net)
    requires NetEffect(c, id, co.signers, co.ctxDone, l.pc, net, e, e')
    ensures EndInv(c, co, stores, id, l', e')
  {
    var p := c.co.prepare;
    MoveKeepsDown(c, id, co.signers, co.ctxDone, l, l', net, e, e');
    MoveKeepsParticipant(c, id, co.signers, co.ctxDone, l, net, e, e');
    MoveKeepsLog(c, id, co.signers, co.ctxDone, l, net, e, e');
    SameParticipantKeepsUp(c, p, id, e, e');
    SameParticipantKeepsRest(c, stores, EntryOfPrepare(p), co.selected, co.signers, id, e, e');
  }

  lemma CancelSendKeepsEnd(c: SignConfig, co: M.State, stores: map<PartyId, Store>, id: PartyId, l: M.Leg, l': M.Leg,
                           e: End, e': End)
    requires stores.Keys == c.nodes && EndInv(c, co, stores, id, l, e)
    requires l.pc.TakenToCancel? && l'.pc.CancelSent? && Delivered(e, e', KeySignCancelMsg, false)
    ensures EndInv(c, co, stores, id, l', e')
  {
    StreamLog.SendingDownKeepsOrder(KeySignReadyMsg, e.down, e.up, e.log, KeySignCancelMsg);
    assert SameParticipant(c, id, e, e');
    SameParticipantKeepsUp(c, c.co.prepare, id, e, e');
  }

  /** The end of a leg that the coordinator only moved around. */
  lemma SteadyKeepsEnd(c: SignConfig, co: M.State, co': M.State, stores: map<PartyId, Store>, id: PartyId,
                       l: M.Leg, l': M.Leg, e: End)
    requires EndInv(c, co, stores, id, l, e) && Steady(l, l') && MI.LegOk(c.co, co.signers, l)
    requires (co'.signers == co.signers && co'.selected == co.selected) || (!co.selected && !M.SecondPhase(l.pc))
    ensures EndInv(c, co', stores, id, l', e)
  {
    SteadyKeepsDown(c.co, co.signers, co'.signers, l, l', e);
  }

  // ---- which steps of the coordinator are steady ----

  ghost predicate AllSteady(co: M.State, co': M.State) {
    && |co'.legs| == |co.legs|
    && (forall k :: 0 <= k < |co.legs| ==> Steady(co.legs[k], co'.legs[k]))
    && ((co'.signers == co.signers && co'.selected == co.selected)
        || (!co.selected && forall k :: 0 <= k < |co.legs| ==> !M.SecondPhase(co.legs[k].pc)))
  }

  lemma ChosenSteady(l: M.Leg, mid: M.Leg, l': M.Leg)
    requires MI.ChoosesLeg(l, mid) && (l' == mid || MI.FansOut(mid, l'))
    ensures Steady(l, l')
  {
  }

  lemma TakenLegs(c: M.Config, co: M.State)
    requires M.ReadyToTake(c, co)
    ensures var mid, co' := MI.Entered(c, co), M.AfterReady(c, co);
      && |mid.legs| == |co'.legs| == |co.legs|
      && forall k :: 0 <= k < |co.legs| ==> co'.legs[k] == mid.legs[k] || MI.FansOut(mid.legs[k], co'.legs[k])
  {
  }

  lemma TakesReadySteady(c: M.Config, co: M.State, co': M.State)
    requires MI.MapInv(c, co) && MI.QueueInv(co) && MI.PhaseInv(co) && M.TakesReady(c, co, co')
    ensures AllSteady(co, co')
  {
    MI.EnteringChooses(c, co);
    TakenLegs(c, co);
    var mid := MI.Entered(c, co);
    forall k | 0 <= k < |co.legs| ensures Steady(co.legs[k], co'.legs[k]) {
      ChosenSteady(co.legs[k], mid.legs[k], co'.legs[k]);
    }
    NotYetSecond(co);
  }

  lemma NotYetSecond(co: M.State)
    requires MI.PhaseInv(co) && co.main.Selecting?
    ensures !co.selected && forall k :: 0 <= k < |co.legs| ==> !M.SecondPhase(co.legs[k].pc)
  {
  }

  lemma SteadyAlone(co: M.State, co': M.State, i: nat)
    requires i < |co.legs| == |co'.legs| && co'.legs == co.legs[i := co'.legs[i]]
    requires Steady(co.legs[i], co'.legs[i]) && co'.signers == co.signers && co'.selected == co.selected
    ensures AllSteady(co, co')
  {
  }

  lemma PushesSteady(c: M.Config, co: M.State, co': M.State, i: nat)
    requires M.Pushes(c, co, co', i)
    ensures AllSteady(co, co')
  {
    var l, l' := co.legs[i], co'.legs[i];
    assert Steady(l, l');
    SteadyAlone(co, co', i);
  }

  lemma CancellerSteady(c: M.Config, co: M.State, co': M.State)
    requires MI.QueueInv(co) && MI.CancelInv(c, co) && M.Cancels(c, co, co') && !co.canceller.HasStream?
    ensures AllSteady(co, co')
  {
    assert co.readyChan != [] ==> co.readyChan[0] in co.readyChan;
  }

  lemma ClosesSteady(co: M.State, co': M.State, i: nat)
    requires M.Closes(co, co', i)
    ensures AllSteady(co, co')
  {
    if co'.legs != co.legs {
      SteadyAlone(co, co', i);
    }
  }

  lemma MainSteady(c: M.Config, co: M.State, co': M.State, step: M.Step)
    requires M.NextStep(c, co, co', step)
    requires !step.LegMoves? && !step.LegPushes? && !step.CancellerMoves? && !step.MainTakesReady?
    ensures AllSteady(co, co')
  {
    if step.MainCloses? {
      ClosesSteady(co, co', step.i);
    } else {
      MainMovesNoLeg(c, co, co', step);
      StillSteady(co, co');
    }
  }

  /** Nothing changed that a stream's end depends on. */
  predicate SameForEnds(co: M.State, co': M.State) {
    co'.legs == co.legs && co'.signers == co.signers && co'.selected == co.selected
  }

  lemma LeavingMovesNoLeg(co: M.State, co': M.State, errChan: seq<GoString>)
    requires M.LeavesWith(co, co', errChan)
    ensures SameForEnds(co, co')
  {
  }

  lemma FinishMovesNoLeg(co: M.State, co': M.State)
    requires M.TakesFinish(co, co')
    ensures SameForEnds(co, co')
  {
  }

  lemma MainMovesNoLeg(c: M.Config, co: M.State, co': M.State, step: M.Step)
    requires M.NextStep(c, co, co', step) && !step.MainCloses?
    requires !step.LegMoves? && !step.LegPushes? && !step.CancellerMoves? && !step.MainTakesReady?
    ensures SameForEnds(co, co')
  {
    match step {
      case MainTakesError => LeavingMovesNoLeg(co, co', co.errChan[1..]);
      case MainGivesUp => LeavingMovesNoLeg(co, co', co.errChan);
      case MainSeesClosed => LeavingMovesNoLeg(co, co', co.errChan);
      case MainTakesFinish => FinishMovesNoLeg(co, co');
      case _ =>
    }
  }

  lemma StillSteady(co: M.State, co': M.State)
    requires SameForEnds(co, co')
    ensures AllSteady(co, co')
  {
  }

  lemma EndAt(c: SignConfig, s: Sys, i: nat)
    requires EndsInv(c, s) && i < |s.ends|
    ensures EndInv(c, s.co, s.stores, c.co.parties[i].id, s.co.legs[i], s.ends[i])
  {
  }

  lemma SteadyStepKeepsEnds(c: SignConfig, s: Sys, s': Sys)
    requires EndsInv(c, s) && MI.LegsInv(c.co, s.co)
    requires AllSteady(s.co, s'.co) && s'.ends == s.ends && s'.stores == s.stores
    ensures EndsInv(c, s')
  {
    forall i | 0 <= i < |s.ends|
      ensures EndInv(c, s'.co, s.stores, c.co.parties[i].id, s'.co.legs[i], s.ends[i])
    {
      EndAt(c, s, i);
      SteadyKeepsEnd(c, s.co, s'.co, s.stores, c.co.parties[i].id, s.co.legs[i], s'.co.legs[i], s.ends[i]);
    }
  }

  /** One stream's leg and end moved; the rest stayed. */
  lemma OneEndKept(c: SignConfig, s: Sys, s': Sys, i: nat)
    requires EndsInv(c, s) && s'.stores == s.stores && i < |s.ends| == |s'.ends| == |s'.co.legs|
    requires s'.co.signers == s.co.signers && s'.co.selected == s.co.selected
    requires forall k :: 0 <= k < |s.ends| && k != i ==> s'.co.legs[k] == s.co.legs[k] && s'.ends[k] == s.ends[k]
    requires EndInv(c, s.co, s.stores, c.co.parties[i].id, s'.co.legs[i], s'.ends[i])
    ensures EndsInv(c, s')
  {
    forall k | 0 <= k < |s.ends|
      ensures EndInv(c, s'.co, s.stores, c.co.parties[k].id, s'.co.legs[k], s'.ends[k])
    {
      if k != i {
        EndAt(c, s, k);
      }
    }
  }

  lemma MoveStepKeepsEnds(c: SignConfig, s: Sys, s': Sys, i: nat, net: M.Net)
    requires EndsInv(c, s) && MI.LegsInv(c.co, s.co) && s.stores.Keys == c.nodes
    requires CoordinatorStep(c, s, s', M.LegMoves(i, net))
    ensures EndsInv(c, s')
  {
    EndAt(c, s, i);
    MoveKeepsEnd(c, s.co, s.stores, c.co.parties[i].id, s.co.legs[i], s'.co.legs[i], net, s.ends[i], s'.ends[i]);
    OneEndKept(c, s, s', i);
  }

  lemma CancelSends(c: M.Config, co: M.State, co': M.State)
    requires MI.CancelInv(c, co) && M.Cancels(c, co, co') && co.canceller.HasStream?
    ensures var i := co.canceller.i;
      && i < |co.legs| == |co'.legs| && co.legs[i].pc.TakenToCancel? && co'.legs[i].pc.CancelSent?
      && co'.legs[i].acts == co.legs[i].acts + [M.Sent(KeySignCancelMsg)]
      && (forall k :: 0 <= k < |co.legs| && k != i ==> co'.legs[k] == co.legs[k])
      && co'.signers == co.signers && co'.selected == co.selected
  {
  }

  lemma CancelStepKeepsEnds(c: SignConfig, s: Sys, s': Sys)
    requires EndsInv(c, s) && MI.CancelInv(c.co, s.co) && s.stores.Keys == c.nodes
    requires M.Cancels(c.co, s.co, s'.co) && s.co.canceller.HasStream? && s'.stores == s.stores
    requires var i := s.co.canceller.i;
      i < |s.ends| == |s'.ends| && s'.ends == s.ends[i := s'.ends[i]]
      && Delivered(s.ends[i], s'.ends[i], KeySignCancelMsg, false)
    ensures EndsInv(c, s')
  {
    var i := s.co.canceller.i;
    CancelSends(c.co, s.co, s'.co);
    EndAt(c, s, i);
    CancelSendKeepsEnd(c, s.co, s.stores, c.co.parties[i].id, s.co.legs[i], s'.co.legs[i], s.ends[i], s'.ends[i]);
    OneEndKept(c, s, s', i);
  }

  lemma CoordinatorKeepsEnds(c: SignConfig, s: Sys, s': Sys, step: M.Step)
    requires EndsInv(c, s) && s.stores.Keys == c.nodes
    requires MI.LegsInv(c.co, s.co) && MI.MapInv(c.co, s.co) && MI.QueueInv(s.co) && MI.PhaseInv(s.co)
    requires MI.CancelInv(c.co, s.co)
    requires CoordinatorStep(c, s, s', step)
    ensures EndsInv(c, s')
  {
    if step.LegMoves? {
      MoveStepKeepsEnds(c, s, s', step.i, step.net);
    } else if step.CancellerMoves? && s.co.canceller.HasStream? {
      CancelStepKeepsEnds(c, s, s');
    } else {
      match step {
        case LegPushes(i) => PushesSteady(c.co, s.co, s'.co, i);
        case MainTakesReady => TakesReadySteady(c.co, s.co, s'.co);
        case CancellerMoves => CancellerSteady(c.co, s.co, s'.co);
        case _ => MainSteady(c.co, s.co, s'.co, step);
      }
      SteadyStepKeepsEnds(c, s, s');
    }
  }

  lemma CoordinatorKeepsInv(c: SignConfig, s: Sys, s': Sys, step: M.Step)
    requires Inv(c, s) && CoordinatorStep(c, s, s', step)
    ensures Inv(c, s')
  {
    MI.StepKeepsInv(c.co, s.co, s'.co, step);
    CoordinatorKeepsEnds(c, s, s', step);
  }

  // ---- all steps ----

  lemma StoreMovesKeepsEnds(c: SignConfig, s: Sys, s': Sys, n: PartyId)
    requires EndsInv(c, s) && n in s.stores && StoreInv(s.stores[n])
    requires NextStep(c, s, s', StoreMoves(n))
    ensures EndsInv(c, s') && StoreInv(s'.stores[n])
  {
    forall i | 0 <= i < |s.ends|
      ensures EndInv(c, s'.co, s'.stores, c.co.parties[i].id, s'.co.legs[i], s'.ends[i])
    {
      EndAt(c, s, i);
      StoreKeepsData(s.stores, n, s'.stores[n], EntryOfPrepare(c.co.prepare), c.co.parties[i].id, s.ends[i]);
    }
    var op, ok :| Apply(s.stores[n], op, ok, s'.stores[n]);
    OpKeepsInv(s.stores[n], op, ok, s'.stores[n]);
  }

  lemma HandlerStepKeepsEnds(c: SignConfig, s: Sys, s': Sys, i: nat)
    requires EndsInv(c, s) && NextStep(c, s, s', HandlerMoves(i))
    requires StoreInv(s.stores[c.co.parties[i].id])
    ensures EndsInv(c, s')
  {
    EndAt(c, s, i);
    HandlerKeepsEnd(c, s.co, s.stores, c.co.parties[i].id, s.co.legs[i], s.ends[i], s'.ends[i]);
    OneEndKept(c, s, s', i);
  }

  lemma ReadStepKeepsEnds(c: SignConfig, s: Sys, s': Sys, i: nat, m: Mail)
    requires EndsInv(c, s) && NextStep(c, s, s', HandlerReads(i, m))
    ensures EndsInv(c, s')
  {
    EndAt(c, s, i);
    ReadingKeepsEnd(c, s.co, s.stores, c.co.parties[i].id, s.co.legs[i], s.ends[i], s'.ends[i], m);
    OneEndKept(c, s, s', i);
  }

  /** The sender of a session message is one of the signers it was given. */
  lemma SelectedIsSigner(c: SignConfig, co: M.State, i: nat)
    requires MI.MapInv(c.co, co) && MI.QuorumInv(c.co, co) && i < |co.legs| && M.SecondPhase(co.legs[i].pc)
    requires co.selected
    ensures c.co.parties[i].id in Ids(co.signers)
  {
    MT.ChosenIsSigner(c.co.parties, co.ready.Keys, i);
  }

  lemma MailerIsSigner(c: SignConfig, co: M.State, i: nat, e: End)
    requires MI.MapInv(c.co, co) && MI.QuorumInv(c.co, co) && MI.PhaseInv(co) && i < |co.legs| == |c.co.parties|
    requires DownInv(c.co.prepare, co.signers, co.legs[i], e) && RunInv(c.co.prepare, e) && e.run.Some?
    ensures co.selected && c.co.parties[i].id in Ids(co.signers)
  {
    RunHasSigners(c, co, i, e);
    SelectedIsSigner(c, co, i);
  }

  lemma SenderKeptEnds(c: SignConfig, s: Sys, i: nat, toId: PartyId, e': End, t: End, t': End)
    requires EndsInv(c, s) && i < |s.ends| && SignMails(i, c.co.parties[i].id, toId, s.ends[i], e', t, t')
    requires MI.MapInv(c.co, s.co) && MI.QuorumInv(c.co, s.co) && MI.PhaseInv(s.co)
    ensures EndsInv(c, s.(ends := s.ends[i := e']))
    ensures s.co.selected && c.co.parties[i].id in Ids(s.co.signers)
  {
    EndAt(c, s, i);
    SendingKeepsEnd(c, s.co, s.stores, i, c.co.parties[i].id, toId, s.co.legs[i], s.ends[i], e', t, t');
    MailerIsSigner(c, s.co, i, s.ends[i]);
    OneEndKept(c, s, s.(ends := s.ends[i := e']), i);
  }

  lemma ReceiverKeptEnds(c: SignConfig, s: Sys, i: nat, j: nat, e: End, e': End, t': End, fromId: PartyId)
    requires EndsInv(c, s) && j < |s.ends| && s.co.selected && fromId in Ids(s.co.signers)
    requires SignMails(i, fromId, c.co.parties[j].id, e, e', s.ends[j], t')
    ensures EndsInv(c, s.(ends := s.ends[j := t']))
  {
    EndAt(c, s, j);
    MailedKeepsEnd(c, s.co, s.stores, c.co.parties[j].id, s.co.legs[j], s.ends[j], t',
                   Mail(i, ProcessUpdate(fromId, e.handler.wire, e.handler.broadcast)));
    OneEndKept(c, s, s.(ends := s.ends[j := t']), j);
  }

  lemma MailStepKeepsEnds(c: SignConfig, s: Sys, s': Sys, i: nat, j: nat)
    requires EndsInv(c, s) && NextStep(c, s, s', HandlerMails(i, j))
    requires MI.MapInv(c.co, s.co) && MI.QuorumInv(c.co, s.co) && MI.PhaseInv(s.co)
    ensures EndsInv(c, s')
  {
    SenderKeptEnds(c, s, i, c.co.parties[j].id, s'.ends[i], s.ends[j], s'.ends[j]);
    var mid := s.(ends := s.ends[i := s'.ends[i]]);
    ReceiverKeptEnds(c, mid, i, j, s.ends[i], s'.ends[i], s'.ends[j], c.co.parties[i].id);
    assert s' == mid.(ends := mid.ends[j := s'.ends[j]]);
  }

  lemma StoresKept(c: SignConfig, s: Sys, s': Sys, step: Step)
    requires NextStep(c, s, s', step) && s.stores.Keys == c.nodes
    requires forall n :: n in s.stores ==> StoreInv(s.stores[n])
    ensures s'.stores.Keys == c.nodes
    ensures forall n :: n in s'.stores ==> StoreInv(s'.stores[n])
  {
    if step.StoreMoves? {
      var st, st' := s.stores[step.n], s'.stores[step.n];
      var op, ok :| Apply(st, op, ok, st');
      OpKeepsInv(st, op, ok, st');
    }
  }

  lemma ParticipantKeepsEnds(c: SignConfig, s: Sys, s': Sys, step: Step)
    requires EndsInv(c, s) && NextStep(c, s, s', step) && !step.Coordinator?
    requires forall n :: n in s.stores ==> StoreInv(s.stores[n])
    requires MI.MapInv(c.co, s.co) && MI.QuorumInv(c.co, s.co) && MI.PhaseInv(s.co)
    ensures EndsInv(c, s') && s'.co == s.co
  {
    match step {
      case StoreMoves(n) => StoreMovesKeepsEnds(c, s, s', n);
      case HandlerMoves(i) => HandlerStepKeepsEnds(c, s, s', i);
      case HandlerReads(i, m) => ReadStepKeepsEnds(c, s, s', i, m);
      case HandlerMails(i, j) => MailStepKeepsEnds(c, s, s', i, j);
    }
  }

  lemma NextKeepsInv(c: SignConfig, s: Sys, s': Sys)
    requires Inv(c, s) && Next(c, s, s')
    ensures Inv(c, s')
  {
    var step :| NextStep(c, s, s', step);
    if step.Coordinator? {
      CoordinatorKeepsInv(c, s, s', step.step);
    } else {
      StoresKept(c, s, s', step);
      ParticipantKeepsEnds(c, s, s', step);
    }
  }

  lemma {:induction false} RunInvariant(c: SignConfig, run: seq<Sys>, n: nat)
    requires Run(c, run) && n < |run|
    ensures Inv(c, run[n])
  {
    if n == 0 {
      InitKeeps(c, run[0]);
    } else {
      RunInvariant(c, run, n - 1);
      assert Next(c, run[n - 1], run[n - 1 + 1]);
      NextKeepsInv(c, run[n - 1], run[n]);
    }
  }
}
