/** The inductive invariant of the key generation system, and that every step keeps it. */
module KeyGenInvariant {
  import opened Wrappers
  import opened TssTypes
  import opened SeqLemmas
  import opened KeyStore
  import opened Routing
  import opened Mailing
  import opened KeyGenModel
  import StreamLog

  // ---- what the two ends of one stream know ----

  /** The participant's Ready was delivered. */
  predicate ReadyUp(l: Leg) {
    StreamLog.ReadySent(KeyGenReadyMsg, l.up)
  }

  predicate FinishUp(l: Leg, f: KeyGenFinish) {
    |l.up| == 2 && l.up[1] == KeyGenFinishMsg(f)
  }

  predicate Succeeded(l: Leg) {
    |l.up| == 2 && l.up[1].KeyGenFinishMsg? && l.up[1].keyGenFinish.isSuccess
  }

  /** The coordinator's goroutine is in its second phase. */
  predicate Started(pc: Goroutine) {
    pc.SendStart? || pc.AwaitFinish? || pc.OfferFinish? || pc.FinishTaken?
  }

  /** The coordinator's end: what it has sent and read, by where its goroutine is. */
  predicate DownInv(p: KeyGenPrepare, l: Leg) {
    && l.upRead <= |l.up|
    && l.down <= [KeyGenPrepareMsg(p), KeyGenStartMsg]
    && (|l.down| == 2 ==> ReadyUp(l))
    && match l.pc
       case Dial => l.down == [] && l.up == [] && l.upRead == 0 && l.handler.NoHandler?
       case SendPrepare => l.down == [] && l.upRead == 0
       case AwaitReady => |l.down| == 1 && l.upRead == 0
       case OfferReady => |l.down| == 1 && l.upRead == 1 && ReadyUp(l)
       case Parked => |l.down| == 1 && l.upRead == 1 && ReadyUp(l)
       case SendStart => |l.down| == 1 && l.upRead == 1 && ReadyUp(l)
       case AwaitFinish => |l.down| == 2 && l.upRead == 1
       case OfferFinish(f) => |l.down| == 2 && l.upRead == 2 && FinishUp(l, f)
       case FinishTaken => |l.down| == 2 && l.upRead == 2 && |l.up| == 2
       case OfferError(_) => true
       case ErrorTaken(_) => true
  }

  predicate UpShape(up: seq<TssP2PMsg>) {
    StreamLog.UpShape(KeyGenReadyMsg, up)
  }

  predicate Failed(m: TssP2PMsg) {
    StreamLog.FailureOf(KeyGenReadyMsg, m)
  }

  predicate LogInv(l: Leg) {
    StreamLog.InOrder(KeyGenReadyMsg, l.down, l.up, l.log)
  }

  /** The participant's end: what it has sent and read, by where its handler is. */
  predicate UpInv(c: Config, p: KeyGenPrepare, id: PartyId, l: Leg) {
    && l.downRead <= |l.down|
    && UpShape(l.up)
    && (ReadyUp(l) ==> l.prepare == Some(p) && l.downRead > 0 && (l.accepted || id in c.dev))
    && (Succeeded(l) ==> l.downRead == 2)
    && (l.prepare.Some? ==> l.prepare == Some(p))
    && (l.produced.Some? ==> l.handler.Finishing? || l.handler.Over?)
    && match l.handler
       case NoHandler => l.up == [] && l.downRead == 0 && l.prepare.None?
       case AwaitPrepare => l.up == [] && l.downRead == 0 && l.prepare.None?
       case Refused(_) => l.up == [] && l.prepare.None?
       case CheckStore => l.up == [] && l.downRead == 1 && l.prepare.Some?
       case Validating => l.up == [] && l.downRead == 1 && l.prepare.Some?
       case SendReady => l.up == [] && l.downRead == 1 && l.prepare.Some? && (l.accepted || id in c.dev)
       case AwaitStart => l.up == [KeyGenReadyMsg] && l.downRead == 1 && l.prepare.Some?
       case Running => l.up == [KeyGenReadyMsg] && l.downRead == 2 && l.prepare.Some?
       case Sending(_, _, _, _) => l.up == [KeyGenReadyMsg] && l.downRead == 2 && l.prepare.Some?
       case Failing(_) => |l.up| <= 1 && (l.up != [] ==> ReadyUp(l)) && l.prepare.Some?
       case Alarming(_, _) => |l.up| <= 1 && (l.up != [] ==> ReadyUp(l)) && l.prepare.Some?
       case Finishing(f) =>
         && |l.up| <= 1 && (l.up != [] ==> ReadyUp(l)) && l.prepare.Some?
         && (f.isSuccess ==> ReadyUp(l) && l.downRead == 2)
       case Over => true
  }

  // ---- what the participant's store holds ----

  /** The handler has set the entry pending and has yet to settle it. */
  predicate Unsettled(h: Handler) {
    h.Validating? || h.SendReady? || h.AwaitStart? || h.Running? || h.Sending? || h.Failing?
  }

  /** The handler is about to claim, or has claimed, success with this public key. */
  predicate Claims(l: Leg, pubkey: Bytes) {
    || l.handler == Finishing(KeyGenFinish(true, [], pubkey))
    || FinishUp(l, KeyGenFinish(true, [], pubkey))
  }

  predicate ClaimsWellFormed(l: Leg) {
    && (l.handler.Finishing? && l.handler.finish.isSuccess ==> Claims(l, l.handler.finish.publicKey))
    && (|l.up| == 2 && l.up[1].KeyGenFinishMsg? && l.up[1].keyGenFinish.isSuccess ==>
          Claims(l, l.up[1].keyGenFinish.publicKey))
  }

  ghost predicate Committed(st: Store, e: EntryId, pubkey: Bytes) {
    e in st && st[e].status == StatusReady && st[e].pubkey == pubkey
  }

  /** Past the storage check the entry exists, and a claim of success is true. */
  ghost predicate EntryInv(stores: map<PartyId, Store>, e: EntryId, id: PartyId, l: Leg) {
    && (l.handler.NoHandler? || id in stores)
    && ((Unsettled(l.handler) && !l.handler.Failing?) || ReadyUp(l) ==> id in stores && e in stores[id])
    && ClaimsWellFormed(l)
    && forall pubkey :: Claims(l, pubkey) ==>
         id in stores && Committed(stores[id], e, pubkey) && l.produced == Some(pubkey)
  }

  /** With one handler per node, the handler alone decides the entry's status. */
  ghost predicate StatusInv(stores: map<PartyId, Store>, e: EntryId, id: PartyId, l: Leg) {
    id in stores ==>
      match l.handler
      case Validating => e in stores[id] && stores[id][e].status == StatusPending
      case SendReady => e in stores[id] && stores[id][e].status == StatusPending
      case AwaitStart => e in stores[id] && stores[id][e].status == StatusPending
      case Running => e in stores[id] && stores[id][e].status == StatusPending
      case Sending(_, _, _, _) => e in stores[id] && stores[id][e].status == StatusPending
      case Failing(_) => e in stores[id] ==> stores[id][e].status == StatusPending
      case Alarming(_, _) => e in stores[id] ==> stores[id][e].status == StatusError
      case Finishing(f) => !f.isSuccess ==> (e in stores[id] ==> stores[id][e].status == StatusError)
      case Over =>
        && (e in stores[id] ==> stores[id][e].status != StatusPending)
        && (forall k :: 0 <= k < |l.up| && l.up[k].KeyGenFinishMsg? && !l.up[k].keyGenFinish.isSuccess ==>
              (e in stores[id] ==> stores[id][e].status == StatusError))
      case _ => e !in stores[id]
  }

  /** Updates come from members, and a broadcast under way has yet to reach exactly those others
      that it has not reached. */
  ghost predicate RoutingInv(parties: seq<PartyID>, id: PartyId, l: Leg) {
    && (forall m :: m in l.mail && m.msg.ProcessUpdate? ==> m.msg.fromPartyId in Ids(parties))
    && (l.handler.Sending? && l.handler.broadcast ==> l.handler.sent + l.handler.to == Others(parties, id))
  }

  ghost predicate LegInv(c: Config, stores: map<PartyId, Store>, sid: SessionId, req: Request, i: nat, l: Leg)
    requires i < |req.parties|
  {
    var p := PrepareOf(sid, req);
    var id := req.parties[i].id;
    && DownInv(p, l)
    && UpInv(c, p, id, l)
    && EntryInv(stores, EntryOf(p), id, l)
    && (Distinct(Ids(req.parties)) ==> StatusInv(stores, EntryOf(p), id, l))
    && LogInv(l)
    && RoutingInv(req.parties, id, l)
  }

  // ---- the coordinator ----

  ghost function Taken(legs: seq<Leg>): (t: set<nat>)
    ensures forall i :: i in t <==> 0 <= i < |legs| && legs[i].pc.FinishTaken?
  {
    set i: nat | i in Below(|legs|) && legs[i].pc.FinishTaken?
  }

  /** Every listed party is in the ready map, counted by its size as the code does. */
  predicate Full(ses: Session) {
    |ses.main.ready| == |ses.req.parties| > 0
  }

  predicate SucceededWith(l: Leg, pubkey: Bytes) {
    && |l.up| == 2 && l.up[1].KeyGenFinishMsg?
    && l.up[1].keyGenFinish.isSuccess && l.up[1].keyGenFinish.publicKey == pubkey
  }

  /** The ready map names, under each party's id, a stream of that party that delivered Ready. */
  ghost predicate ReadyMapInv(ses: Session) {
    && |ses.legs| == |ses.req.parties| <= MAX_INT32
    && forall p :: p in ses.main.ready ==>
         && ses.main.ready[p] < |ses.legs|
         && ses.req.parties[ses.main.ready[p]].id == p
         && ReadyUp(ses.legs[ses.main.ready[p]])
  }

  /** The second phase begins only with a full ready map. */
  ghost predicate BarrierInv(ses: Session) {
    forall i :: 0 <= i < |ses.legs| && (Started(ses.legs[i].pc) || |ses.legs[i].down| == 2) ==> Full(ses)
  }

  ghost predicate PhaseInv(ses: Session)
    requires ReadyMapInv(ses)
  {
    match ses.main
    case WaitReady(ready) =>
      && (forall i :: 0 <= i < |ses.legs| ==> !Started(ses.legs[i].pc) && |ses.legs[i].down| != 2)
      && (forall p :: p in ready ==> ses.legs[ready[p]].pc.Parked?)
    case WaitFinish(_, finishCnt) =>
      && Full(ses)
      && finishCnt == |Taken(ses.legs)| < |ses.legs|
      && (forall i :: 0 <= i < |ses.legs| && ses.legs[i].pc.FinishTaken? ==> Succeeded(ses.legs[i]))
    case Returned(_, result) =>
      result.Success? ==>
        && Full(ses)
        && (forall i :: 0 <= i < |ses.legs| ==> Succeeded(ses.legs[i]))
        && (exists i :: 0 <= i < |ses.legs| && SucceededWith(ses.legs[i], result.value))
  }

  ghost predicate MainInv(ses: Session) {
    ReadyMapInv(ses) && BarrierInv(ses) && PhaseInv(ses)
  }

  ghost predicate SessionInv(c: Config, stores: map<PartyId, Store>, sid: SessionId, ses: Session) {
    && ColonFree(sid)
    && MainInv(ses)
    && forall i :: 0 <= i < |ses.legs| ==> LegInv(c, stores, sid, ses.req, i, ses.legs[i])
  }

  // ---- the stores ----

  ghost predicate Attends(req: Request, legs: seq<Leg>, i: nat, n: PartyId) {
    i < |legs| == |req.parties| && req.parties[i].id == n
  }

  /** Every entry was written for one of the sessions by a handler of that node. */
  ghost predicate EntryTraced(sessions: map<SessionId, Session>, n: PartyId, e: EntryId, d: KeyData) {
    && e.sessionId in sessions
    && var ses := sessions[e.sessionId];
       && e.keyId == ses.req.keyId
       && d.threshold == ses.req.threshold && d.allPartyId == ses.req.parties
       && (d.status == StatusPending ==>
             exists i: nat :: Attends(ses.req, ses.legs, i, n) && Unsettled(ses.legs[i].handler))
       && (d.status == StatusReady ==>
             exists i: nat :: Attends(ses.req, ses.legs, i, n) && ses.legs[i].produced == Some(d.pubkey))
  }

  ghost predicate StoresInv(c: Config, s: State) {
    && s.stores.Keys == c.nodes
    && (forall n :: n in s.stores ==> StoreInv(s.stores[n]))
    && (forall n, e :: n in s.stores && e in s.stores[n] ==> EntryTraced(s.sessions, n, e, s.stores[n][e]))
  }

  ghost predicate Inv(c: Config, s: State) {
    && StoresInv(c, s)
    && forall sid :: sid in s.sessions ==> SessionInv(c, s.stores, sid, s.sessions[sid])
  }

  // ---- one leg at a time ----

  /** How a leg's own steps may change it, as far as the coordinator's books are concerned. */
  predicate Quiet(l: Leg, l': Leg) {
    && (Started(l'.pc) ==> Started(l.pc))
    && (|l'.down| == 2 ==> Started(l.pc) || |l.down| == 2)
    && (l.pc.Parked? ==> l'.pc.Parked?)
    && (l'.pc.FinishTaken? <==> l.pc.FinishTaken?)
    && l.up <= l'.up
    && |l'.up| <= 2
  }

  /** How a leg's own steps may change it, as far as the entry's trace is concerned. */
  predicate Traceable(l: Leg, l': Leg) {
    && (Unsettled(l.handler) ==> Unsettled(l'.handler))
    && (l.produced.Some? ==> l'.produced == l.produced)
  }

  lemma GoroutineKeepsDown(c: Config, p: KeyGenPrepare, id: PartyId, l: Leg, l': Leg)
    requires DownInv(p, l) && UpShape(l.up) && GoroutineStep(c, p, id, l, l')
    ensures DownInv(p, l') && Quiet(l, l') && Traceable(l, l')
  {
  }

  /** What a goroutine may change of the participant's side: its handler comes into being. */
  predicate SameHandler(c: Config, id: PartyId, l: Leg, l': Leg) {
    && l'.up == l.up && l'.prepare == l.prepare && l'.accepted == l.accepted && l'.produced == l.produced
    && l'.downRead == l.downRead && l.down <= l'.down && l'.mail == l.mail
    && (l'.handler == l.handler || (l.handler.NoHandler? && l'.handler.AwaitPrepare? && id in c.nodes))
  }

  lemma GoroutineKeepsUp(c: Config, p: KeyGenPrepare, id: PartyId, l: Leg, l': Leg)
    requires DownInv(p, l) && UpInv(c, p, id, l) && GoroutineStep(c, p, id, l, l')
    ensures UpInv(c, p, id, l') && SameHandler(c, id, l, l')
  {
  }

  lemma GoroutineKeepsEntry(c: Config, stores: map<PartyId, Store>, e: EntryId, id: PartyId, l: Leg, l': Leg)
    requires stores.Keys == c.nodes && SameHandler(c, id, l, l')
    requires EntryInv(stores, e, id, l)
    ensures EntryInv(stores, e, id, l')
    ensures StatusInv(stores, e, id, l) ==> StatusInv(stores, e, id, l')
  {
    assert forall pubkey :: Claims(l', pubkey) ==> Claims(l, pubkey);
  }

  lemma GoroutineKeepsLog(c: Config, p: KeyGenPrepare, id: PartyId, l: Leg, l': Leg)
    requires DownInv(p, l) && UpInv(c, p, id, l) && LogInv(l) && GoroutineStep(c, p, id, l, l')
    ensures LogInv(l')
  {
    if l.pc.SendPrepare? {
      StreamLog.SendingDownKeepsOrder(KeyGenReadyMsg, l.down, l.up, l.log, KeyGenPrepareMsg(p));
    } else if l.pc.SendStart? {
      StreamLog.SendingDownKeepsOrder(KeyGenReadyMsg, l.down, l.up, l.log, KeyGenStartMsg);
    }
    GoroutineSends(c, p, id, l, l');
  }

  lemma GoroutineSends(c: Config, p: KeyGenPrepare, id: PartyId, l: Leg, l': Leg)
    requires GoroutineStep(c, p, id, l, l')
    ensures l'.up == l.up
    ensures || (l'.down == l.down && l'.log == l.log)
            || (l.pc.SendPrepare?
                && l'.down == l.down + [KeyGenPrepareMsg(p)] && l'.log == l.log + [KeyGenPrepareMsg(p)])
            || (l.pc.SendStart? && l'.down == l.down + [KeyGenStartMsg] && l'.log == l.log + [KeyGenStartMsg])
  {
  }

  lemma HandlerSends(c: Config, p: KeyGenPrepare, id: PartyId, l: Leg, l': Leg) returns (m: TssP2PMsg)
    requires UpInv(c, p, id, l) && HandlerStep(c, id, l, l')
    ensures l'.down == l.down
    ensures (l'.up == l.up && l'.log == l.log) || (l'.up == l.up + [m] && l'.log == l.log + [m])
    ensures l'.up != l.up && m == KeyGenReadyMsg ==> l.up == [] && |l.down| > 0
    ensures l'.up != l.up && m != KeyGenReadyMsg ==>
      m.KeyGenFinishMsg? && (l.up == [] || l.up == [KeyGenReadyMsg]) && (Failed(m) || (ReadyUp(l) && |l.down| >= 2))
  {
    m := match l.handler
         case Refused(reason) => KeyGenFinishMsg(KeyGenFinish(false, reason, []))
         case Finishing(f) => KeyGenFinishMsg(f)
         case _ => KeyGenReadyMsg;
  }

  lemma HandlerKeepsLog(c: Config, p: KeyGenPrepare, id: PartyId, l: Leg, l': Leg)
    requires DownInv(p, l) && UpInv(c, p, id, l) && LogInv(l) && HandlerStep(c, id, l, l')
    ensures LogInv(l')
  {
    var m := HandlerSends(c, p, id, l, l');
    if l'.up != l.up {
      StreamLog.SendingUpKeepsOrder(KeyGenReadyMsg, l.down, l.up, l.log, m);
    }
  }

  lemma HandlerKeepsRouting(c: Config, p: KeyGenPrepare, id: PartyId, l: Leg, l': Leg)
    requires UpInv(c, p, id, l) && RoutingInv(p.allPartyId, id, l) && HandlerStep(c, id, l, l')
    ensures RoutingInv(p.allPartyId, id, l')
  {
  }

  lemma GoroutineKeepsLeg(c: Config, stores: map<PartyId, Store>, sid: SessionId, req: Request, i: nat,
                          l: Leg, l': Leg)
    requires i < |req.parties| && stores.Keys == c.nodes
    requires LegInv(c, stores, sid, req, i, l)
    requires GoroutineStep(c, PrepareOf(sid, req), req.parties[i].id, l, l')
    ensures LegInv(c, stores, sid, req, i, l') && Quiet(l, l') && Traceable(l, l')
  {
    var p, id := PrepareOf(sid, req), req.parties[i].id;
    GoroutineKeepsDown(c, p, id, l, l');
    GoroutineKeepsUp(c, p, id, l, l');
    GoroutineKeepsEntry(c, stores, EntryOf(p), id, l, l');
    GoroutineKeepsLog(c, p, id, l, l');
  }

  /** What a handler may change of the coordinator's side: it may have sent one more message. */
  predicate SameGoroutine(l: Leg, l': Leg) {
    && l'.pc == l.pc && l'.down == l.down && l'.upRead == l.upRead
    && l.up <= l'.up && |l'.up| <= 2
    && (|l'.up| == |l.up| || !l.handler.NoHandler?)
    && (l.handler.NoHandler? ==> l'.handler.NoHandler?)
  }

  lemma SameGoroutineKeepsDown(p: KeyGenPrepare, l: Leg, l': Leg)
    requires DownInv(p, l) && SameGoroutine(l, l')
    ensures DownInv(p, l') && Quiet(l, l')
  {
  }

  lemma HandlerKeepsGoroutine(c: Config, p: KeyGenPrepare, id: PartyId, l: Leg, l': Leg)
    requires UpInv(c, p, id, l) && HandlerStep(c, id, l, l')
    ensures SameGoroutine(l, l') && Traceable(l, l') && l'.mail == l.mail
  {
  }

  lemma HandlerKeepsUp(c: Config, p: KeyGenPrepare, id: PartyId, l: Leg, l': Leg)
    requires DownInv(p, l) && UpInv(c, p, id, l) && HandlerStep(c, id, l, l')
    ensures UpInv(c, p, id, l')
  {
    if l.handler.AwaitPrepare? || l.handler.Refused? || l.handler.Validating? || l.handler.SendReady? {
      PreparingKeepsUp(c, p, id, l, l');
    } else if l.handler.Finishing? {
      FinishingKeepsUp(c, p, id, l, l');
    } else {
      assert l'.up == l.up && l'.down == l.down;
    }
  }

  lemma FinishingKeepsUp(c: Config, p: KeyGenPrepare, id: PartyId, l: Leg, l': Leg)
    requires UpInv(c, p, id, l) && HandlerStep(c, id, l, l') && l.handler.Finishing?
    ensures UpInv(c, p, id, l')
  {
  }

  /** The steps up to Ready. */
  lemma PreparingKeepsUp(c: Config, p: KeyGenPrepare, id: PartyId, l: Leg, l': Leg)
    requires DownInv(p, l) && UpInv(c, p, id, l) && HandlerStep(c, id, l, l')
    requires l.handler.AwaitPrepare? || l.handler.Refused? || l.handler.Validating? || l.handler.SendReady?
    ensures UpInv(c, p, id, l')
  {
  }

  /** A handler's own steps make no new claim of success, and claim only what it will send. */
  lemma HandlerClaims(c: Config, p: KeyGenPrepare, id: PartyId, l: Leg, l': Leg)
    requires UpInv(c, p, id, l) && HandlerStep(c, id, l, l') && ClaimsWellFormed(l)
    ensures ClaimsWellFormed(l')
    ensures forall pubkey :: Claims(l', pubkey) ==> Claims(l, pubkey)
    ensures l'.produced == l.produced
  {
  }

  lemma HandlerKeepsEntry(c: Config, p: KeyGenPrepare, stores: map<PartyId, Store>, e: EntryId, id: PartyId,
                          l: Leg, l': Leg)
    requires UpInv(c, p, id, l) && HandlerStep(c, id, l, l')
    requires EntryInv(stores, e, id, l)
    ensures EntryInv(stores, e, id, l')
  {
    HandlerClaims(c, p, id, l, l');
    assert l'.handler.NoHandler? <==> l.handler.NoHandler?;
    assert Unsettled(l'.handler) && !l'.handler.Failing? ==> Unsettled(l.handler) && !l.handler.Failing?;
    assert ReadyUp(l') ==> ReadyUp(l) || l.handler.SendReady?;
  }

  lemma HandlerKeepsStatus(c: Config, p: KeyGenPrepare, stores: map<PartyId, Store>, e: EntryId, id: PartyId,
                           l: Leg, l': Leg)
    requires UpInv(c, p, id, l) && HandlerStep(c, id, l, l')
    requires EntryInv(stores, e, id, l) && StatusInv(stores, e, id, l)
    ensures StatusInv(stores, e, id, l')
  {
  }

  lemma HandlerKeepsLeg(c: Config, stores: map<PartyId, Store>, sid: SessionId, req: Request, i: nat,
                        l: Leg, l': Leg)
    requires i < |req.parties| && stores.Keys == c.nodes
    requires LegInv(c, stores, sid, req, i, l)
    requires HandlerStep(c, req.parties[i].id, l, l')
    ensures LegInv(c, stores, sid, req, i, l') && Quiet(l, l') && Traceable(l, l')
  {
    var p, id := PrepareOf(sid, req), req.parties[i].id;
    HandlerKeepsGoroutine(c, p, id, l, l');
    SameGoroutineKeepsDown(p, l, l');
    HandlerKeepsUp(c, p, id, l, l');
    HandlerKeepsEntry(c, p, stores, EntryOf(p), id, l, l');
    HandlerKeepsLog(c, p, id, l, l');
    HandlerKeepsRouting(c, p, id, l, l');
    if Distinct(Ids(req.parties)) {
      HandlerKeepsStatus(c, p, stores, EntryOf(p), id, l, l');
    }
  }

  // ---- reading and sending session messages ----

  lemma UpdateKeepsLeg(c: Config, stores: map<PartyId, Store>, sid: SessionId, req: Request, i: nat,
                       l: Leg, l': Leg, m: Mail)
    requires i < |req.parties|
    requires LegInv(c, stores, sid, req, i, l) && UpdateStep(l, l', m)
    ensures LegInv(c, stores, sid, req, i, l') && Quiet(l, l') && Traceable(l, l')
  {
    var p, id := PrepareOf(sid, req), req.parties[i].id;
    SameGoroutineKeepsDown(p, l, l');
    assert forall pubkey :: Claims(l', pubkey) ==> Claims(l, pubkey);
  }

  lemma MailedKeepsLeg(c: Config, stores: map<PartyId, Store>, sid: SessionId, req: Request, j: nat,
                       l: Leg, l': Leg, m: Mail)
    requires j < |req.parties|
    requires LegInv(c, stores, sid, req, j, l)
    requires m.msg.ProcessUpdate? ==> m.msg.fromPartyId in Ids(req.parties)
    requires l' == Gets(l, m)
    ensures LegInv(c, stores, sid, req, j, l') && Quiet(l, l') && Traceable(l, l')
  {
    SameGoroutineKeepsDown(PrepareOf(sid, req), l, l');
    assert forall pubkey :: Claims(l', pubkey) ==> Claims(l, pubkey);
  }

  lemma MailingKeepsLeg(c: Config, stores: map<PartyId, Store>, sid: SessionId, req: Request, i: nat,
                        toId: PartyId, l: Leg, l': Leg, to: Leg, to': Leg)
    requires i < |req.parties|
    requires LegInv(c, stores, sid, req, i, l)
    requires MailStep(i, req.parties[i].id, toId, l, l', to, to')
    ensures LegInv(c, stores, sid, req, i, l') && Quiet(l, l') && Traceable(l, l')
  {
    var p, id := PrepareOf(sid, req), req.parties[i].id;
    SameGoroutineKeepsDown(p, l, l');
    MailingKeepsUp(c, p, i, id, toId, l, l', to, to');
    MailingKeepsEntry(stores, EntryOf(p), i, id, toId, l, l', to, to');
  }

  lemma MailingKeepsUp(c: Config, p: KeyGenPrepare, i: nat, id: PartyId, toId: PartyId,
                       l: Leg, l': Leg, to: Leg, to': Leg)
    requires UpInv(c, p, id, l) && MailStep(i, id, toId, l, l', to, to')
    ensures UpInv(c, p, id, l')
  {
  }

  lemma MailingKeepsEntry(stores: map<PartyId, Store>, e: EntryId, i: nat, id: PartyId, toId: PartyId,
                          l: Leg, l': Leg, to: Leg, to': Leg)
    requires EntryInv(stores, e, id, l) && MailStep(i, id, toId, l, l', to, to')
    ensures EntryInv(stores, e, id, l')
    ensures StatusInv(stores, e, id, l) ==> StatusInv(stores, e, id, l')
  {
    assert forall pubkey :: Claims(l', pubkey) ==> Claims(l, pubkey);
  }

  // ---- storage steps ----

  lemma StoreStepKeepsSides(c: Config, p: KeyGenPrepare, id: PartyId, l: Leg, l': Leg,
                            st: Store, st': Store, op: StoreOp, ok: bool)
    requires DownInv(p, l) && UpInv(c, p, id, l) && StoreStep(id, l, l', st, st', op, ok)
    ensures DownInv(p, l') && UpInv(c, p, id, l') && Quiet(l, l') && op.e == EntryOf(p)
  {
    assert SameGoroutine(l, l');
    SameGoroutineKeepsDown(p, l, l');
  }

  /** The store of the acting node changes at one entry; every other leg's facts survive. */
  lemma StoreStepFrames(stores: map<PartyId, Store>, at: PartyId, st': Store, op: StoreOp, ok: bool,
                        e: EntryId, id: PartyId, l: Leg)
    requires at in stores && StoreInv(stores[at]) && Apply(stores[at], op, ok, st')
    requires EntryInv(stores, e, id, l)
    ensures EntryInv(stores[at := st'], e, id, l)
    ensures (op.e != e || at != id) && StatusInv(stores, e, id, l) ==> StatusInv(stores[at := st'], e, id, l)
  {
    OpKeepsInv(stores[at], op, ok, st');
    assert EntryStep(stores[at], st', e);
    if op.e != e {
      OpTouchesOneEntry(stores[at], op, ok, st', e);
    }
  }

  lemma StoreStepKeepsEntry(c: Config, p: KeyGenPrepare, stores: map<PartyId, Store>, stores': map<PartyId, Store>,
                            id: PartyId, l: Leg, l': Leg, op: StoreOp, ok: bool)
    requires UpInv(c, p, id, l) && EntryInv(stores, EntryOf(p), id, l)
    requires id in stores && id in stores' && StoreInv(stores[id])
    requires StoreStep(id, l, l', stores[id], stores'[id], op, ok)
    ensures EntryInv(stores', EntryOf(p), id, l')
    ensures StatusInv(stores, EntryOf(p), id, l) ==> StatusInv(stores', EntryOf(p), id, l')
  {
    StoreStepKeepsClaims(c, p, stores, stores', id, l, l', op, ok);
    StoreStepKeepsStatus(p, stores, stores', id, l, l', op, ok);
  }

  lemma StoreStepKeepsClaims(c: Config, p: KeyGenPrepare, stores: map<PartyId, Store>, stores': map<PartyId, Store>,
                             id: PartyId, l: Leg, l': Leg, op: StoreOp, ok: bool)
    requires UpInv(c, p, id, l) && EntryInv(stores, EntryOf(p), id, l)
    requires id in stores && id in stores' && StoreInv(stores[id])
    requires StoreStep(id, l, l', stores[id], stores'[id], op, ok)
    ensures EntryInv(stores', EntryOf(p), id, l')
  {
    OpKeepsInv(stores[id], op, ok, stores'[id]);
    assert EntryStep(stores[id], stores'[id], EntryOf(p));
    assert forall f :: !FinishUp(l', f);
  }

  lemma StoreStepKeepsStatus(p: KeyGenPrepare, stores: map<PartyId, Store>, stores': map<PartyId, Store>,
                             id: PartyId, l: Leg, l': Leg, op: StoreOp, ok: bool)
    requires id in stores && id in stores' && (l.prepare.Some? ==> l.prepare == Some(p))
    requires StoreStep(id, l, l', stores[id], stores'[id], op, ok)
    ensures StatusInv(stores, EntryOf(p), id, l) ==> StatusInv(stores', EntryOf(p), id, l')
  {
  }

  // ---- the coordinator's books ----

  ghost predicate AllQuiet(ses: Session, ses': Session) {
    && ses'.req == ses.req && ses'.main == ses.main && |ses'.legs| == |ses.legs|
    && forall k :: 0 <= k < |ses.legs| ==> Quiet(ses.legs[k], ses'.legs[k])
  }

  lemma QuietKeepsMain(ses: Session, ses': Session)
    requires MainInv(ses) && AllQuiet(ses, ses')
    ensures MainInv(ses')
  {
    assert ReadyMapInv(ses') && BarrierInv(ses');
    QuietKeepsPhase(ses, ses');
  }

  lemma QuietKeepsPhase(ses: Session, ses': Session)
    requires ReadyMapInv(ses) && PhaseInv(ses) && AllQuiet(ses, ses') && ReadyMapInv(ses')
    ensures PhaseInv(ses')
  {
    match ses.main
    case WaitReady(ready) =>
    case WaitFinish(_, _) =>
      assert Taken(ses'.legs) == Taken(ses.legs);
      assert forall k :: 0 <= k < |ses.legs| && Succeeded(ses.legs[k]) ==> ses'.legs[k].up == ses.legs[k].up;
    case Returned(_, result) =>
      assert forall k :: 0 <= k < |ses.legs| && Succeeded(ses.legs[k]) ==> ses'.legs[k].up == ses.legs[k].up;
      if result.Success? {
        var i :| 0 <= i < |ses.legs| && SucceededWith(ses.legs[i], result.value);
        assert SucceededWith(ses'.legs[i], result.value);
      }
  }

  /** Main's channel operations move goroutines on and change nothing else of a leg. */
  predicate Handed(l: Leg, l': Leg) {
    && l' == l.(pc := l'.pc)
    && (|| l'.pc == l.pc
        || (l.pc.OfferReady? && (l'.pc.Parked? || l'.pc.SendStart?))
        || (l.pc.Parked? && l'.pc.SendStart?)
        || (l.pc.OfferError? && l'.pc.ErrorTaken?)
        || (l.pc.OfferFinish? && l'.pc.FinishTaken?))
  }

  lemma HandedKeepsLeg(c: Config, stores: map<PartyId, Store>, sid: SessionId, req: Request, i: nat, l: Leg, l': Leg)
    requires i < |req.parties|
    requires LegInv(c, stores, sid, req, i, l) && Handed(l, l')
    ensures LegInv(c, stores, sid, req, i, l') && Traceable(l, l')
  {
    assert forall pubkey :: Claims(l', pubkey) ==> Claims(l, pubkey);
  }

  ghost predicate AllHanded(ses: Session, ses': Session) {
    && ses'.req == ses.req && |ses'.legs| == |ses.legs|
    && forall k :: 0 <= k < |ses.legs| ==> Handed(ses.legs[k], ses'.legs[k])
  }

  lemma TakeReadyHands(ses: Session, ses': Session, i: nat)
    requires ReadyMapInv(ses) && PhaseInv(ses) && TakeReady(ses, ses', i)
    ensures AllHanded(ses, ses')
    ensures ses'.main.ready == ses.main.ready[ses.req.parties[i].id := i]
  {
    var ready := ses.main.ready[ses.req.parties[i].id := i];
    forall k | 0 <= k < |ses.legs| ensures Handed(ses.legs[k], ses'.legs[k]) {
      if k in ready.Values && k != i {
        var p :| p in ready && ready[p] == k;
        assert p in ses.main.ready;
      }
    }
  }

  lemma ReadyMapGrows(ses: Session, ses': Session, i: nat)
    requires ReadyMapInv(ses) && i < |ses.legs| && ReadyUp(ses.legs[i])
    requires AllHanded(ses, ses')
    requires ses'.main.ready == ses.main.ready[ses.req.parties[i].id := i]
    ensures ReadyMapInv(ses') && |ses'.main.ready| > 0
  {
    assert ses.req.parties[i].id in ses'.main.ready;
  }

  lemma TakeReadyKeepsMain(ses: Session, ses': Session, i: nat)
    requires MainInv(ses) && TakeReady(ses, ses', i)
    requires ReadyUp(ses.legs[i])
    ensures AllHanded(ses, ses') && MainInv(ses')
  {
    TakeReadyHands(ses, ses', i);
    ReadyMapGrows(ses, ses', i);
    if ses'.main.WaitFinish? {
      NowStarting(ses, ses');
    } else {
      StillWaiting(ses, ses', i);
    }
  }

  lemma NowStarting(ses: Session, ses': Session)
    requires ReadyMapInv(ses) && PhaseInv(ses) && ses.main.WaitReady? && AllHanded(ses, ses')
    requires ses'.main.WaitFinish? && ses'.main.finishCnt == 0
    requires |ses'.main.ready| == |ses'.req.parties| > 0 && ReadyMapInv(ses')
    ensures BarrierInv(ses') && PhaseInv(ses')
  {
    assert forall k :: 0 <= k < |ses.legs| && ses'.legs[k].pc.FinishTaken? ==> Started(ses.legs[k].pc);
    assert Taken(ses'.legs) == {};
  }

  lemma StillWaiting(ses: Session, ses': Session, i: nat)
    requires ReadyMapInv(ses) && PhaseInv(ses) && TakeReady(ses, ses', i)
    requires ses'.main.WaitReady? && ReadyMapInv(ses')
    ensures BarrierInv(ses') && PhaseInv(ses')
  {
    forall k | 0 <= k < |ses.legs| ensures !Started(ses'.legs[k].pc) && |ses'.legs[k].down| != 2 {
    }
    forall p | p in ses'.main.ready ensures ses'.legs[ses'.main.ready[p]].pc.Parked? {
      if p != ses.req.parties[i].id {
        assert p in ses.main.ready;
      }
    }
  }

  lemma TakeErrorKeepsMain(ses: Session, ses': Session, i: nat)
    requires MainInv(ses) && TakeError(ses, ses', i)
    ensures AllHanded(ses, ses') && MainInv(ses')
  {
    assert AllHanded(ses, ses');
    assert BarrierInv(ses');
  }

  /** The count of finishes taken reaches the party count exactly when every goroutine's was taken. */
  lemma TakenCounts(legs: seq<Leg>, i: nat)
    requires i < |legs| && legs[i].pc.OfferFinish?
    ensures var legs' := legs[i := legs[i].(pc := FinishTaken)];
      && |Taken(legs')| == |Taken(legs)| + 1 <= |legs|
      && (|Taken(legs')| == |legs| ==> forall k :: 0 <= k < |legs| ==> legs'[k].pc.FinishTaken?)
  {
    var legs' := legs[i := legs[i].(pc := FinishTaken)];
    assert Taken(legs') == Taken(legs) + {i};
    SubsetCard(Taken(legs'), Below(|legs|));
    if |Taken(legs')| == |legs| {
      SubsetSameCard(Taken(legs'), Below(|legs|));
      forall k | 0 <= k < |legs| ensures legs'[k].pc.FinishTaken? {
        assert k in Below(|legs|);
      }
    }
  }

  lemma TakeFinishKeepsMain(ses: Session, ses': Session, i: nat)
    requires MainInv(ses) && TakeFinish(ses, ses', i)
    requires FinishUp(ses.legs[i], ses.legs[i].pc.finish)
    ensures AllHanded(ses, ses') && MainInv(ses')
  {
    assert AllHanded(ses, ses');
    assert ReadyMapInv(ses') && BarrierInv(ses');
    TakeFinishKeepsPhase(ses, ses', i);
  }

  lemma TakeFinishKeepsPhase(ses: Session, ses': Session, i: nat)
    requires ReadyMapInv(ses) && PhaseInv(ses) && TakeFinish(ses, ses', i) && ReadyMapInv(ses')
    requires FinishUp(ses.legs[i], ses.legs[i].pc.finish)
    ensures PhaseInv(ses')
  {
    if ses.legs[i].pc.finish.isSuccess {
      if ses'.main.WaitFinish? {
        CountedKeepsPhase(ses, ses', i);
      } else {
        LastCountedKeepsPhase(ses, ses', i);
      }
    }
  }

  /** A success is counted, and it is not the last. */
  lemma CountedKeepsPhase(ses: Session, ses': Session, i: nat)
    requires ReadyMapInv(ses) && PhaseInv(ses) && TakeFinish(ses, ses', i) && ReadyMapInv(ses')
    requires FinishUp(ses.legs[i], ses.legs[i].pc.finish) && ses'.main.WaitFinish?
    ensures PhaseInv(ses')
  {
    TakenCounts(ses.legs, i);
  }

  /** The last success is counted: every leg has succeeded, and this one with the returned key. */
  lemma LastCountedKeepsPhase(ses: Session, ses': Session, i: nat)
    requires ReadyMapInv(ses) && PhaseInv(ses) && TakeFinish(ses, ses', i) && ReadyMapInv(ses')
    requires FinishUp(ses.legs[i], ses.legs[i].pc.finish) && ses.legs[i].pc.finish.isSuccess && ses'.main.Returned?
    ensures PhaseInv(ses')
  {
    TakenCounts(ses.legs, i);
    assert SucceededWith(ses'.legs[i], ses.legs[i].pc.finish.publicKey);
  }

  // ---- the traces of entries ----

  ghost predicate AllTraceable(ses: Session, ses': Session) {
    && ses'.req == ses.req && |ses'.legs| == |ses.legs|
    && forall k :: 0 <= k < |ses.legs| ==> Traceable(ses.legs[k], ses'.legs[k])
  }

  lemma TraceKept(sessions: map<SessionId, Session>, sid: SessionId, ses': Session, n: PartyId, e: EntryId, d: KeyData)
    requires sid in sessions && EntryTraced(sessions, n, e, d)
    requires AllTraceable(sessions[sid], ses')
    ensures EntryTraced(sessions[sid := ses'], n, e, d)
  {
    if e.sessionId == sid {
      var ses := sessions[sid];
      if d.status == StatusPending {
        var i: nat :| Attends(ses.req, ses.legs, i, n) && Unsettled(ses.legs[i].handler);
        assert Attends(ses'.req, ses'.legs, i, n) && Unsettled(ses'.legs[i].handler);
      }
      if d.status == StatusReady {
        var i: nat :| Attends(ses.req, ses.legs, i, n) && ses.legs[i].produced == Some(d.pubkey);
        assert Attends(ses'.req, ses'.legs, i, n) && ses'.legs[i].produced == Some(d.pubkey);
      }
    }
  }

  /** A step of one session that leaves the stores alone keeps the traces. */
  lemma TracesKept(c: Config, s: State, s': State, sid: SessionId)
    requires StoresInv(c, s) && s'.stores == s.stores
    requires sid in s.sessions && sid in s'.sessions
    requires s'.sessions == s.sessions[sid := s'.sessions[sid]]
    requires AllTraceable(s.sessions[sid], s'.sessions[sid])
    ensures StoresInv(c, s')
  {
    forall n, e | n in s'.stores && e in s'.stores[n] ensures EntryTraced(s'.sessions, n, e, s'.stores[n][e]) {
      assert EntryTraced(s.sessions, n, e, s.stores[n][e]);
      TraceKept(s.sessions, sid, s'.sessions[sid], n, e, s.stores[n][e]);
    }
  }

  /** The entry that a storage step names is traced to the handler that made the step. */
  lemma StoreStepTracesOwn(sessions: map<SessionId, Session>, sid: SessionId, ses': Session, i: nat, l': Leg,
                           st: Store, st': Store, op: StoreOp, ok: bool)
    requires sid in sessions && |sessions[sid].legs| == |sessions[sid].req.parties|
    requires OneLeg(sessions[sid], ses', i, l')
    requires var ses := sessions[sid]; var id := ses.req.parties[i].id;
      && StoreStep(id, ses.legs[i], l', st, st', op, ok)
      && ses.legs[i].prepare == Some(PrepareOf(sid, ses.req))
      && (op.e in st ==> EntryTraced(sessions, id, op.e, st[op.e]))
      && (ses.legs[i].produced.Some? ==> ses.legs[i].handler.Finishing? || ses.legs[i].handler.Over?)
    ensures op.e in st' ==>
      EntryTraced(sessions[sid := ses'], sessions[sid].req.parties[i].id, op.e, st'[op.e])
  {
    var ses := sessions[sid];
    var l, id := ses.legs[i], ses.req.parties[i].id;
    if ok {
      assert Attends(ses'.req, ses'.legs, i, id) && ses'.legs[i] == l';
    } else if op.e in st {
      if Traceable(l, l') {
        TraceKept(sessions, sid, ses', id, op.e, st[op.e]);
      } else {
        assert st[op.e].status != StatusPending;
        if st[op.e].status == StatusReady {
          var k: nat :| Attends(ses.req, ses.legs, k, id) && ses.legs[k].produced == Some(st[op.e].pubkey);
          assert k != i;
          assert Attends(ses'.req, ses'.legs, k, id) && ses'.legs[k].produced == Some(st[op.e].pubkey);
        }
      }
    }
  }

  /** Every other entry keeps its trace: if it is of the same session, it is of another node. */
  lemma StoreStepTracesOther(sessions: map<SessionId, Session>, sid: SessionId, ses': Session, i: nat, l': Leg,
                             n: PartyId, e: EntryId, d: KeyData)
    requires sid in sessions && |sessions[sid].legs| == |sessions[sid].req.parties|
    requires OneLeg(sessions[sid], ses', i, l')
    requires EntryTraced(sessions, n, e, d)
    requires e.sessionId == sid ==> n != sessions[sid].req.parties[i].id
    ensures EntryTraced(sessions[sid := ses'], n, e, d)
  {
    if e.sessionId == sid {
      var ses := sessions[sid];
      if d.status == StatusPending {
        var k: nat :| Attends(ses.req, ses.legs, k, n) && Unsettled(ses.legs[k].handler);
        assert Attends(ses'.req, ses'.legs, k, n) && ses'.legs[k] == ses.legs[k];
      }
      if d.status == StatusReady {
        var k: nat :| Attends(ses.req, ses.legs, k, n) && ses.legs[k].produced == Some(d.pubkey);
        assert Attends(ses'.req, ses'.legs, k, n) && ses'.legs[k] == ses.legs[k];
      }
    }
  }

  // ---- the whole invariant ----

  /** A step of one session that leaves the stores alone. */
  lemma AssembleQuietStore(c: Config, s: State, s': State, sid: SessionId)
    requires Inv(c, s) && s'.stores == s.stores
    requires sid in s.sessions && sid in s'.sessions
    requires s'.sessions == s.sessions[sid := s'.sessions[sid]]
    requires SessionInv(c, s.stores, sid, s'.sessions[sid])
    requires AllTraceable(s.sessions[sid], s'.sessions[sid])
    ensures Inv(c, s')
  {
    TracesKept(c, s, s', sid);
  }

  /** What a step of the session that leaves the stores alone keeps. */
  ghost predicate Kept(c: Config, stores: map<PartyId, Store>, sid: SessionId, ses: Session, ses': Session) {
    SessionInv(c, stores, sid, ses') && AllTraceable(ses, ses')
  }

  /** One leg moved and kept its facts. */
  lemma OneLegKept(c: Config, stores: map<PartyId, Store>, sid: SessionId, ses: Session, ses': Session, i: nat, l': Leg)
    requires SessionInv(c, stores, sid, ses) && OneLeg(ses, ses', i, l')
    requires LegInv(c, stores, sid, ses.req, i, l') && Quiet(ses.legs[i], l') && Traceable(ses.legs[i], l')
    ensures Kept(c, stores, sid, ses, ses')
  {
    forall k | 0 <= k < |ses.legs|
      ensures LegInv(c, stores, sid, ses.req, k, ses'.legs[k])
      ensures Quiet(ses.legs[k], ses'.legs[k]) && Traceable(ses.legs[k], ses'.legs[k])
    {
      assert LegInv(c, stores, sid, ses.req, k, ses.legs[k]);
    }
    QuietKeepsMain(ses, ses');
  }

  /** Main took something off a channel. */
  lemma HandedKept(c: Config, stores: map<PartyId, Store>, sid: SessionId, ses: Session, ses': Session)
    requires SessionInv(c, stores, sid, ses) && MainInv(ses') && AllHanded(ses, ses')
    ensures Kept(c, stores, sid, ses, ses')
  {
    forall k | 0 <= k < |ses.legs|
      ensures LegInv(c, stores, sid, ses.req, k, ses'.legs[k]) && Traceable(ses.legs[k], ses'.legs[k])
    {
      HandedKeepsLeg(c, stores, sid, ses.req, k, ses.legs[k], ses'.legs[k]);
    }
  }

  lemma ReturnKept(c: Config, stores: map<PartyId, Store>, sid: SessionId, ses: Session, ses': Session)
    requires SessionInv(c, stores, sid, ses)
    requires ses'.ctxDone && (ses' == ses.(ctxDone := true) || GiveUp(ses, ses'))
    ensures Kept(c, stores, sid, ses, ses')
  {
    assert ReadyMapInv(ses') && BarrierInv(ses');
    if ses'.main == ses.main {
      assert Taken(ses'.legs) == Taken(ses.legs);
    }
    forall k | 0 <= k < |ses.legs| ensures LegInv(c, stores, sid, ses.req, k, ses'.legs[k]) {
    }
  }

  lemma MailKept(c: Config, stores: map<PartyId, Store>, sid: SessionId, ses: Session, ses': Session, i: nat, j: nat)
    requires SessionInv(c, stores, sid, ses)
    requires i < |ses.legs| && j < |ses.legs| == |ses'.legs| == |ses.req.parties| && i != j
    requires ses' == ses.(legs := ses.legs[i := ses'.legs[i]][j := ses'.legs[j]])
    requires MailStep(i, ses.req.parties[i].id, ses.req.parties[j].id,
                      ses.legs[i], ses'.legs[i], ses.legs[j], ses'.legs[j])
    ensures Kept(c, stores, sid, ses, ses')
  {
    var l, l', t, t' := ses.legs[i], ses'.legs[i], ses.legs[j], ses'.legs[j];
    SenderKept(c, stores, sid, ses, i, ses.req.parties[j].id, l', t, t');
    var mid := ses.(legs := ses.legs[i := l']);
    ReceiverKept(c, stores, sid, mid, ses', ses.req.parties[i].id, i, j, l, l', t, t');
    TraceableTwice(ses, mid, ses');
  }

  lemma TraceableTwice(ses: Session, mid: Session, ses': Session)
    requires AllTraceable(ses, mid) && AllTraceable(mid, ses')
    ensures AllTraceable(ses, ses')
  {
    forall k | 0 <= k < |ses.legs| ensures Traceable(ses.legs[k], ses'.legs[k]) {
      assert Traceable(ses.legs[k], mid.legs[k]) && Traceable(mid.legs[k], ses'.legs[k]);
    }
  }

  lemma SenderKept(c: Config, stores: map<PartyId, Store>, sid: SessionId, ses: Session, i: nat, toId: PartyId,
                   l': Leg, t: Leg, t': Leg)
    requires SessionInv(c, stores, sid, ses) && i < |ses.legs|
    requires MailStep(i, ses.req.parties[i].id, toId, ses.legs[i], l', t, t')
    ensures var mid := ses.(legs := ses.legs[i := l']);
      Kept(c, stores, sid, ses, mid)
  {
    MailingKeepsLeg(c, stores, sid, ses.req, i, toId, ses.legs[i], l', t, t');
    OneLegKept(c, stores, sid, ses, ses.(legs := ses.legs[i := l']), i, l');
  }

  lemma ReceiverKept(c: Config, stores: map<PartyId, Store>, sid: SessionId, ses: Session, ses': Session,
                     fromId: PartyId, i: nat, j: nat, l: Leg, l': Leg, t: Leg, t': Leg)
    requires SessionInv(c, stores, sid, ses) && i < |ses.legs| && j < |ses.legs| && t == ses.legs[j]
    requires ses.req.parties[i].id == fromId
    requires MailStep(i, fromId, ses.req.parties[j].id, l, l', t, t') && OneLeg(ses, ses', j, t')
    ensures Kept(c, stores, sid, ses, ses')
  {
    var m := if l.handler.Sending? then ProcessUpdate(fromId, l.handler.wire, l.handler.broadcast)
             else ProcessError(l.handler.reason);
    assert Ids(ses.req.parties)[i] == fromId;
    MailedKeepsLeg(c, stores, sid, ses.req, j, t, t', Mail(i, m));
    OneLegKept(c, stores, sid, ses, ses', j, t');
  }

  /** What a goroutine offers to main, the participant has sent. */
  lemma OffersAreUp(c: Config, stores: map<PartyId, Store>, sid: SessionId, ses: Session, i: nat)
    requires SessionInv(c, stores, sid, ses) && i < |ses.legs|
    ensures ses.legs[i].pc.OfferReady? ==> ReadyUp(ses.legs[i])
    ensures ses.legs[i].pc.OfferFinish? ==> FinishUp(ses.legs[i], ses.legs[i].pc.finish)
  {
    assert LegInv(c, stores, sid, ses.req, i, ses.legs[i]);
  }

  lemma TakeReadyKept(c: Config, stores: map<PartyId, Store>, sid: SessionId, ses: Session, ses': Session, i: nat)
    requires SessionInv(c, stores, sid, ses) && TakeReady(ses, ses', i)
    ensures Kept(c, stores, sid, ses, ses')
  {
    OffersAreUp(c, stores, sid, ses, i);
    TakeReadyKeepsMain(ses, ses', i);
    HandedKept(c, stores, sid, ses, ses');
  }

  lemma TakeFinishKept(c: Config, stores: map<PartyId, Store>, sid: SessionId, ses: Session, ses': Session, i: nat)
    requires SessionInv(c, stores, sid, ses) && TakeFinish(ses, ses', i)
    ensures Kept(c, stores, sid, ses, ses')
  {
    OffersAreUp(c, stores, sid, ses, i);
    TakeFinishKeepsMain(ses, ses', i);
    HandedKept(c, stores, sid, ses, ses');
  }

  lemma TakeErrorKept(c: Config, stores: map<PartyId, Store>, sid: SessionId, ses: Session, ses': Session, i: nat)
    requires SessionInv(c, stores, sid, ses) && TakeError(ses, ses', i)
    ensures Kept(c, stores, sid, ses, ses')
  {
    TakeErrorKeepsMain(ses, ses', i);
    HandedKept(c, stores, sid, ses, ses');
  }

  lemma MainStepKept(c: Config, stores: map<PartyId, Store>, sid: SessionId, ses: Session, ses': Session, step: Step)
    requires SessionInv(c, stores, sid, ses)
    requires
      || step.ContextDone? || step.MainGivesUp?
      || step.MainTakesReady? || step.MainTakesError? || step.MainTakesFinish?
    requires SessionStep(c, stores, stores, ses, ses', step)
    ensures Kept(c, stores, sid, ses, ses')
  {
    match step {
      case ContextDone(_) => ReturnKept(c, stores, sid, ses, ses');
      case MainGivesUp(_) => ReturnKept(c, stores, sid, ses, ses');
      case MainTakesReady(_, i) => TakeReadyKept(c, stores, sid, ses, ses', i);
      case MainTakesError(_, i) => TakeErrorKept(c, stores, sid, ses, ses', i);
      case MainTakesFinish(_, i) => TakeFinishKept(c, stores, sid, ses, ses', i);
    }
  }

  lemma LegStepKept(c: Config, stores: map<PartyId, Store>, sid: SessionId, ses: Session, ses': Session, step: Step)
    requires SessionInv(c, stores, sid, ses) && stores.Keys == c.nodes
    requires (step.GoroutineMoves? && step.sid == sid) || step.HandlerMoves? || step.HandlerReads?
    requires SessionStep(c, stores, stores, ses, ses', step)
    ensures Kept(c, stores, sid, ses, ses')
  {
    var i := step.i;
    match step {
      case GoroutineMoves(_, _) => GoroutineKeepsLeg(c, stores, sid, ses.req, i, ses.legs[i], ses'.legs[i]);
      case HandlerMoves(_, _) => HandlerKeepsLeg(c, stores, sid, ses.req, i, ses.legs[i], ses'.legs[i]);
      case HandlerReads(_, _, m) => UpdateKeepsLeg(c, stores, sid, ses.req, i, ses.legs[i], ses'.legs[i], m);
    }
    OneLegKept(c, stores, sid, ses, ses', i, ses'.legs[i]);
  }

  lemma QuietStoreStepKeepsInv(c: Config, s: State, s': State, step: Step)
    requires Inv(c, s) && NextStep(c, s, s', step)
    requires !step.StartSession? && !step.HandlerStores?
    ensures Inv(c, s')
  {
    QuietStepKept(c, s.stores, step.sid, s.sessions[step.sid], s'.sessions[step.sid], step);
    AssembleQuietStore(c, s, s', step.sid);
  }

  lemma QuietStepKept(c: Config, stores: map<PartyId, Store>, sid: SessionId, ses: Session, ses': Session, step: Step)
    requires SessionInv(c, stores, sid, ses) && stores.Keys == c.nodes && step.sid == sid
    requires !step.StartSession? && !step.HandlerStores? && SessionStep(c, stores, stores, ses, ses', step)
    ensures Kept(c, stores, sid, ses, ses')
  {
    match step {
      case GoroutineMoves(_, _) => LegStepKept(c, stores, sid, ses, ses', step);
      case HandlerMoves(_, _) => LegStepKept(c, stores, sid, ses, ses', step);
      case HandlerReads(_, _, _) => LegStepKept(c, stores, sid, ses, ses', step);
      case HandlerMails(_, i, j) => MailKept(c, stores, sid, ses, ses', i, j);
      case _ => MainStepKept(c, stores, sid, ses, ses', step);
    }
  }

  lemma FreshEntry(c: Config, s: State, e: EntryId, n: PartyId)
    requires StoresInv(c, s) && e.sessionId !in s.sessions
    ensures n in s.stores ==> e !in s.stores[n]
  {
  }

  lemma StartKeepsInv(c: Config, s: State, s': State, sid: SessionId, req: Request)
    requires Inv(c, s) && NextStep(c, s, s', StartSession(sid, req))
    ensures Inv(c, s')
  {
    var ses := s'.sessions[sid];
    forall i | 0 <= i < |ses.legs| ensures LegInv(c, s'.stores, sid, req, i, ses.legs[i]) {
      FreshEntry(c, s, EntryOf(PrepareOf(sid, req)), req.parties[i].id);
      assert forall pubkey :: !Claims(ses.legs[i], pubkey);
    }
    assert MainInv(ses);
    forall n, e | n in s'.stores && e in s'.stores[n] ensures EntryTraced(s'.sessions, n, e, s'.stores[n][e]) {
      assert EntryTraced(s.sessions, n, e, s.stores[n][e]);
      assert e.sessionId != sid;
    }
  }

  lemma StoreStepKeepsOwnLeg(c: Config, stores: map<PartyId, Store>, stores': map<PartyId, Store>,
                             sid: SessionId, req: Request, i: nat, l: Leg, l': Leg, op: StoreOp, ok: bool)
    requires i < |req.parties| && LegInv(c, stores, sid, req, i, l)
    requires var id := req.parties[i].id;
      && id in stores && id in stores' && StoreInv(stores[id])
      && StoreStep(id, l, l', stores[id], stores'[id], op, ok)
    ensures LegInv(c, stores', sid, req, i, l') && Quiet(l, l')
    ensures op.e == EntryOf(PrepareOf(sid, req))
  {
    var p, id := PrepareOf(sid, req), req.parties[i].id;
    StoreStepKeepsSides(c, p, id, l, l', stores[id], stores'[id], op, ok);
    StoreStepKeepsEntry(c, p, stores, stores', id, l, l', op, ok);
    StoreStepSendsNothing(id, l, l', stores[id], stores'[id], op, ok);
  }

  lemma StoreStepSendsNothing(id: PartyId, l: Leg, l': Leg, st: Store, st': Store, op: StoreOp, ok: bool)
    requires StoreStep(id, l, l', st, st', op, ok)
    ensures l'.down == l.down && l'.up == l.up && l'.log == l.log && l'.mail <= l.mail
    ensures !l'.handler.Sending?
  {
  }

  /** A leg of another party, or of another session, sees at most a growing store. */
  lemma StoreStepFramesLeg(c: Config, stores: map<PartyId, Store>, at: PartyId, st': Store, op: StoreOp, ok: bool,
                           sid: SessionId, req: Request, k: nat, l: Leg)
    requires at in stores && StoreInv(stores[at]) && Apply(stores[at], op, ok, st')
    requires k < |req.parties| && LegInv(c, stores, sid, req, k, l)
    requires Distinct(Ids(req.parties)) ==> op.e != EntryOf(PrepareOf(sid, req)) || at != req.parties[k].id
    ensures LegInv(c, stores[at := st'], sid, req, k, l)
  {
    StoreStepFrames(stores, at, st', op, ok, EntryOf(PrepareOf(sid, req)), req.parties[k].id, l);
  }

  lemma StoreStepKeepsSession(c: Config, s: State, s': State, sid: SessionId, i: nat, op: StoreOp, ok: bool)
    requires Inv(c, s) && NextStep(c, s, s', HandlerStores(sid, i, op, ok))
    ensures SessionInv(c, s'.stores, sid, s'.sessions[sid])
  {
    var ses, ses' := s.sessions[sid], s'.sessions[sid];
    var id := ses.req.parties[i].id;
    assert LegInv(c, s.stores, sid, ses.req, i, ses.legs[i]);
    StoreStepKeepsOwnLeg(c, s.stores, s'.stores, sid, ses.req, i, ses.legs[i], ses'.legs[i], op, ok);
    forall k | 0 <= k < |ses.legs|
      ensures LegInv(c, s'.stores, sid, ses.req, k, ses'.legs[k]) && Quiet(ses.legs[k], ses'.legs[k])
    {
      if k != i {
        StoreStepFramesSibling(c, s.stores, i, s'.stores[id], op, ok, sid, ses, k);
      }
    }
    QuietKeepsMain(ses, ses');
  }

  /** Another leg of the acting session: with distinct ids it is at another node. */
  lemma StoreStepFramesSibling(c: Config, stores: map<PartyId, Store>, i: nat, st': Store, op: StoreOp, ok: bool,
                               sid: SessionId, ses: Session, k: nat)
    requires SessionInv(c, stores, sid, ses) && i < |ses.legs| && k < |ses.legs| && k != i
    requires var id := ses.req.parties[i].id; id in stores && StoreInv(stores[id]) && Apply(stores[id], op, ok, st')
    ensures LegInv(c, stores[ses.req.parties[i].id := st'], sid, ses.req, k, ses.legs[k])
    ensures Quiet(ses.legs[k], ses.legs[k])
  {
    var id := ses.req.parties[i].id;
    assert LegInv(c, stores, sid, ses.req, k, ses.legs[k]);
    assert Ids(ses.req.parties)[k] == ses.req.parties[k].id && Ids(ses.req.parties)[i] == id;
    StoreStepFramesLeg(c, stores, id, st', op, ok, sid, ses.req, k, ses.legs[k]);
  }

  lemma StoreStepFramesSession(c: Config, stores: map<PartyId, Store>, at: PartyId, st': Store, op: StoreOp, ok: bool,
                               sid: SessionId, ses: Session)
    requires at in stores && StoreInv(stores[at]) && Apply(stores[at], op, ok, st')
    requires SessionInv(c, stores, sid, ses) && op.e.sessionId != sid
    ensures SessionInv(c, stores[at := st'], sid, ses)
  {
    forall k | 0 <= k < |ses.legs| ensures LegInv(c, stores[at := st'], sid, ses.req, k, ses.legs[k]) {
      StoreStepFramesLeg(c, stores, at, st', op, ok, sid, ses.req, k, ses.legs[k]);
    }
  }

  lemma StoreStepTraces(sessions: map<SessionId, Session>, sid: SessionId, ses': Session, i: nat,
                        stores: map<PartyId, Store>, st': Store, op: StoreOp, ok: bool, n: PartyId, e: EntryId)
    requires sid in sessions && |sessions[sid].legs| == |sessions[sid].req.parties|
    requires i < |ses'.legs| && OneLeg(sessions[sid], ses', i, ses'.legs[i])
    requires var ses := sessions[sid]; var id := ses.req.parties[i].id;
      && id in stores && StoreStep(id, ses.legs[i], ses'.legs[i], stores[id], st', op, ok)
      && ses.legs[i].prepare == Some(PrepareOf(sid, ses.req))
      && (ses.legs[i].produced.Some? ==> ses.legs[i].handler.Finishing? || ses.legs[i].handler.Over?)
      && n in stores && (e in stores[n] ==> EntryTraced(sessions, n, e, stores[n][e]))
      && e in stores[id := st'][n]
    ensures EntryTraced(sessions[sid := ses'], n, e, stores[sessions[sid].req.parties[i].id := st'][n][e])
  {
    var id := sessions[sid].req.parties[i].id;
    if n == id && e == op.e {
      StoreStepTracesOwn(sessions, sid, ses', i, ses'.legs[i], stores[id], st', op, ok);
    } else {
      if n == id {
        OpTouchesOneEntry(stores[id], op, ok, st', e);
      }
      StoreStepTracesOther(sessions, sid, ses', i, ses'.legs[i], n, e, stores[n][e]);
    }
  }

  lemma StoreStepKeepsStores(c: Config, s: State, s': State, sid: SessionId, i: nat, op: StoreOp, ok: bool)
    requires StoresInv(c, s) && NextStep(c, s, s', HandlerStores(sid, i, op, ok))
    requires var ses := s.sessions[sid];
      && ses.legs[i].prepare == Some(PrepareOf(sid, ses.req))
      && (ses.legs[i].produced.Some? ==> ses.legs[i].handler.Finishing? || ses.legs[i].handler.Over?)
    ensures StoresInv(c, s')
  {
    var ses, ses' := s.sessions[sid], s'.sessions[sid];
    var id := ses.req.parties[i].id;
    OpKeepsInv(s.stores[id], op, ok, s'.stores[id]);
    forall n, e | n in s'.stores && e in s'.stores[n] ensures EntryTraced(s'.sessions, n, e, s'.stores[n][e]) {
      StoreStepTraces(s.sessions, sid, ses', i, s.stores, s'.stores[id], op, ok, n, e);
    }
  }

  lemma StoreStepKeepsOthers(c: Config, s: State, s': State, sid: SessionId, i: nat, op: StoreOp, ok: bool,
                             other: SessionId)
    requires Inv(c, s) && NextStep(c, s, s', HandlerStores(sid, i, op, ok))
    requires op.e.sessionId == sid && other in s.sessions && other != sid
    ensures SessionInv(c, s'.stores, other, s'.sessions[other])
  {
    var at := s.sessions[sid].req.parties[i].id;
    StoreStepFramesSession(c, s.stores, at, s'.stores[at], op, ok, other, s.sessions[other]);
  }

  lemma PrepareAt(c: Config, stores: map<PartyId, Store>, sid: SessionId, ses: Session, i: nat)
    requires SessionInv(c, stores, sid, ses) && i < |ses.legs| && ses.legs[i].prepare.Some?
    ensures |ses.legs| == |ses.req.parties| && ses.legs[i].prepare == Some(PrepareOf(sid, ses.req))
    ensures ses.legs[i].produced.Some? ==> ses.legs[i].handler.Finishing? || ses.legs[i].handler.Over?
  {
    assert LegInv(c, stores, sid, ses.req, i, ses.legs[i]);
  }

  lemma StoreStepKeepsInv(c: Config, s: State, s': State, sid: SessionId, i: nat, op: StoreOp, ok: bool)
    requires Inv(c, s) && NextStep(c, s, s', HandlerStores(sid, i, op, ok))
    ensures Inv(c, s')
  {
    PrepareAt(c, s.stores, sid, s.sessions[sid], i);
    StoreStepKeepsStores(c, s, s', sid, i, op, ok);
    StoreStepKeepsSession(c, s, s', sid, i, op, ok);
    forall other | other in s'.sessions && other != sid ensures SessionInv(c, s'.stores, other, s'.sessions[other]) {
      StoreStepKeepsOthers(c, s, s', sid, i, op, ok, other);
    }
  }

  lemma {:induction false} NextKeepsInv(c: Config, s: State, s': State)
    requires Inv(c, s) && Next(c, s, s')
    ensures Inv(c, s')
  {
    var step :| NextStep(c, s, s', step);
    match step {
      case StartSession(sid, req) => StartKeepsInv(c, s, s', sid, req);
      case HandlerStores(sid, i, op, ok) => StoreStepKeepsInv(c, s, s', sid, i, op, ok);
      case _ => QuietStoreStepKeepsInv(c, s, s', step);
    }
  }

  /** The invariant holds in every state of every run. */
  lemma {:induction false} RunInv(c: Config, run: seq<State>, k: nat)
    requires Run(c, run) && k < |run|
    ensures Inv(c, run[k])
  {
    if k > 0 {
      RunInv(c, run, k - 1);
      assert Next(c, run[k - 1], run[k - 1 + 1]);
      NextKeepsInv(c, run[k - 1], run[k]);
    }
  }
}
