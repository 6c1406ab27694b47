/**
 * Key generation as a distributed state machine: any number of nodes and of KeyGen calls, each call
 * with its coordinator, one goroutine and one control stream per listed party, and one handler at
 * the far end of every stream. A step is one send, receive, channel rendezvous or storage call.
 *
 * Streams are first-in first-out and authenticated, but any send or receive may fail; a failed send
 * may or may not have delivered its message, and a session message that was sent may reach nobody.
 * tss-lib, the validator and the context decide freely.
 */
module KeyGenModel {
  import opened Wrappers
  import opened TssTypes
  import opened KeyStore
  import opened Routing
  import opened Mailing

  /** The nodes that run this code, and those started in dev mode, which skip validation. */
  datatype Config = Config(nodes: set<PartyId>, dev: set<PartyId>)

  datatype Request = Request(keyId: KeyId, threshold: int32, parties: seq<PartyID>)

  // ---- the coordinator ----

  /** Where the coordinator's goroutine for one party is. `Offer` states are blocked on a channel. */
  datatype Goroutine =
    | Dial
    | SendPrepare
    | AwaitReady
    | OfferReady
    | Parked
    | SendStart
    | AwaitFinish
    | OfferFinish(finish: KeyGenFinish)
    | FinishTaken
    | OfferError(error: GoString)
    | ErrorTaken(error: GoString)

  /** The goroutine that runs KeyGen itself. `ready` is readyP2PStreamMap, naming streams by position. */
  datatype Main =
    | WaitReady(ready: map<PartyId, nat>)
    | WaitFinish(ready: map<PartyId, nat>, finishCnt: nat)
    | Returned(ready: map<PartyId, nat>, result: Result<Bytes, GoString>)

  // ---- the participant ----

  datatype Handler =
    | NoHandler
    | AwaitPrepare
    | Refused(reason: GoString)
    | CheckStore
    | Validating
    | SendReady
    | AwaitStart
    | Running
    | Sending(sent: seq<PartyId>, to: seq<PartyId>, wire: Bytes, broadcast: bool)
    | Failing(reason: GoString)
    | Alarming(to: seq<PartyId>, reason: GoString)
    | Finishing(finish: KeyGenFinish)
    | Over

  /**
   * One listed party of one call: the coordinator's goroutine, the control stream and the handler.
   * `down` and `up` are all messages ever delivered on the stream, with how many were read, and
   * `log` is both together in the order they were sent.
   * `prepare` is the message the handler works on, `accepted` that the validator said yes,
   * `produced` the public key that tss-lib output, `mail` the session messages not yet read, and
   * `trail` all that it did with session messages.
   */
  datatype Leg = Leg(
    pc: Goroutine,
    handler: Handler,
    down: seq<TssP2PMsg>, downRead: nat,
    up: seq<TssP2PMsg>, upRead: nat,
    log: seq<TssP2PMsg>,
    prepare: Option<KeyGenPrepare>,
    accepted: bool,
    produced: Option<Bytes>,
    mail: multiset<Mail>,
    trail: Trail)

  datatype Session = Session(req: Request, main: Main, ctxDone: bool, legs: seq<Leg>)

  datatype State = State(stores: map<PartyId, Store>, sessions: map<SessionId, Session>)

  function NewLeg(): Leg {
    Leg(Dial, NoHandler, [], 0, [], 0, [], None, false, None, multiset{}, NO_TRAIL)
  }

  function NewSession(req: Request): Session {
    Session(req, WaitReady(map[]), false, seq(|req.parties|, _ => NewLeg()))
  }

  function PrepareOf(sid: SessionId, req: Request): KeyGenPrepare {
    KeyGenPrepare(sid, req.keyId, req.threshold, req.parties)
  }

  // ---- steps of a goroutine ----

  function Down(l: Leg, m: TssP2PMsg): Leg {
    l.(down := l.down + [m], log := l.log + [m])
  }

  function Up(l: Leg, m: TssP2PMsg): Leg {
    l.(up := l.up + [m], log := l.log + [m])
  }

  /** The goroutine goes on to report some error. */
  predicate Errs(l: Leg, l': Leg) {
    l'.pc.OfferError? && l' == l.(pc := l'.pc)
  }

  predicate GoroutineStep(c: Config, prepare: KeyGenPrepare, id: PartyId, l: Leg, l': Leg) {
    match l.pc
    case Dial =>
      || (id in c.nodes && l' == l.(pc := SendPrepare, handler := AwaitPrepare))
      || Errs(l, l')
    case SendPrepare =>
      || l' == Down(l, KeyGenPrepareMsg(prepare)).(pc := AwaitReady)
      || Errs(l, l')
      || Errs(Down(l, KeyGenPrepareMsg(prepare)), l')
    case AwaitReady =>
      || Errs(l, l')
      || (l.upRead < |l.up| &&
          var read := l.(upRead := l.upRead + 1);
          match l.up[l.upRead]
          case KeyGenReadyMsg => l' == read.(pc := OfferReady)
          case KeyGenFinishMsg(finish) => l' == read.(pc := OfferError(finish.failureReason))
          case _ => Errs(read, l'))
    case SendStart =>
      || l' == Down(l, KeyGenStartMsg).(pc := AwaitFinish)
      || Errs(l, l')
      || Errs(Down(l, KeyGenStartMsg), l')
    case AwaitFinish =>
      || Errs(l, l')
      || (l.upRead < |l.up| &&
          var read := l.(upRead := l.upRead + 1);
          match l.up[l.upRead]
          case KeyGenFinishMsg(finish) => l' == read.(pc := OfferFinish(finish))
          case _ => Errs(read, l'))
    case _ => false
  }

  // ---- steps of a handler ----

  function PutsOut(l: Leg, wire: Bytes, broadcast: bool, to: seq<PartyId>): Leg {
    l.(trail := l.trail.(puts := l.trail.puts + [Put(wire, broadcast, to)]))
  }

  function Posts(l: Leg, letter: Letter): Leg {
    l.(trail := l.trail.(posted := l.trail.posted + [letter]))
  }

  function Alarms(l: Leg, letter: Letter): Leg {
    l.(trail := l.trail.(alarmed := l.trail.alarmed + [letter]))
  }

  function Gets(l: Leg, m: Mail): Leg {
    l.(mail := l.mail + multiset{m}, trail := l.trail.(got := l.trail.got + multiset{m}))
  }

  predicate Fails(l: Leg, l': Leg) {
    l'.handler.Failing? && l' == l.(handler := l'.handler)
  }

  predicate Refuses(l: Leg, l': Leg) {
    l'.handler.Refused? && l' == l.(handler := l'.handler)
  }

  predicate FinishSent(l: Leg, l': Leg, finish: KeyGenFinish) {
    l' == l.(handler := Over) || l' == Up(l, KeyGenFinishMsg(finish)).(handler := Over)
  }

  predicate HandlerStep(c: Config, id: PartyId, l: Leg, l': Leg) {
    match l.handler
    case AwaitPrepare =>
      || Refuses(l, l')
      || (l.downRead < |l.down| &&
          var read := l.(downRead := l.downRead + 1);
          match l.down[l.downRead]
          case KeyGenPrepareMsg(p) => l' == read.(prepare := Some(p), handler := CheckStore)
          case _ => Refuses(read, l'))
    case Refused(reason) =>
      FinishSent(l, l', KeyGenFinish(false, reason, []))
    case Validating =>
      if id in c.dev then l' == l.(handler := SendReady)
      else l' == l.(handler := SendReady, accepted := true) || Fails(l, l')
    case SendReady =>
      || l' == Up(l, KeyGenReadyMsg).(handler := AwaitStart)
      || Fails(l, l')
      || Fails(Up(l, KeyGenReadyMsg), l')
    case AwaitStart =>
      || Fails(l, l')
      || (l.downRead < |l.down| && l.prepare.Some? &&
          var read := l.(downRead := l.downRead + 1);
          if l.down[l.downRead].KeyGenStartMsg? && id in Ids(l.prepare.value.allPartyId)
          then l' == read.(handler := Running)
          else Fails(read, l'))
    case Running =>
      || Fails(l, l')
      || (l'.handler.Sending? && l.prepare.Some?
          && var h := l'.handler;
             && l' == PutsOut(l, h.wire, h.broadcast, h.to).(handler := h)
             && h.sent == [] && Addressed(l.prepare.value.allPartyId, id, h.to, h.broadcast))
    case Sending(sent, to, wire, broadcast) =>
      || Fails(l, l')
      || (to == [] && l' == l.(handler := Running))
      || (to != [] &&
          l' == Posts(l, Letter(to[0], ProcessUpdate(id, wire, broadcast)))
                  .(handler := Sending(sent + [to[0]], to[1..], wire, broadcast)))
    case Alarming(to, reason) =>
      if to == [] then l' == l.(handler := Finishing(KeyGenFinish(false, reason, [])))
      else l' == Alarms(l, Letter(to[0], ProcessError(reason))).(handler := Alarming(to[1..], reason))
    case Finishing(finish) =>
      FinishSent(l, l', finish)
    case _ => false
  }

  /** The event loop reads an update. Its sender must be in the party map. */
  predicate UpdateStep(l: Leg, l': Leg, m: Mail) {
    && l.handler.Running? && l.prepare.Some? && m in l.mail && m.msg.ProcessUpdate?
    && var read := l.(mail := l.mail - multiset{m});
       if m.msg.fromPartyId in Ids(l.prepare.value.allPartyId) then l' == read || Fails(read, l')
       else Fails(read, l')
  }

  /** A storage call of the handler: of handleKeyGen0 at its start, end or on an error message of
      another participant, or of handleKeyGen after a failure. */
  ghost predicate StoreStep(id: PartyId, l: Leg, l': Leg, st: Store, st': Store, op: StoreOp, ok: bool) {
    && l.prepare.Some? && Apply(st, op, ok, st') && op.e == EntryOf(l.prepare.value)
    && match l.handler
       case CheckStore =>
         && op.Begin? && op.threshold == l.prepare.value.threshold && op.parties == l.prepare.value.allPartyId
         && if ok then l' == l.(handler := Validating) else Fails(l, l')
       case Running =>
         || (op.Commit? &&
             if ok then l' == l.(handler := Finishing(KeyGenFinish(true, [], op.pubkey)), produced := Some(op.pubkey))
             else Fails(l, l'))
         || (op.Abort? &&
             exists m :: m in l.mail && m.msg.ProcessError? &&
               l' == l.(mail := l.mail - multiset{m},
                        handler := Finishing(KeyGenFinish(false, m.msg.errorMsg, []))))
       case Failing(reason) =>
         op.Abort? && l' == l.(handler := Alarming(Others(l.prepare.value.allPartyId, id), reason),
                               trail := l.trail.(alarm := Some(reason)))
       case _ => false
  }

  /** A node takes session messages while its handler for the session is registered. */
  predicate Listening(h: Handler) {
    !(h.NoHandler? || h.AwaitPrepare? || h.Refused? || h.Over?)
  }

  /** The handler of `from`, listed at `i`, delivers its next session message to the handler of `to`. */
  predicate MailStep(i: nat, fromId: PartyId, toId: PartyId, from: Leg, from': Leg, to: Leg, to': Leg) {
    && Listening(to.handler)
    && match from.handler
       case Sending(sent, ids, wire, broadcast) =>
         && ids != [] && ids[0] == toId
         && var m := ProcessUpdate(fromId, wire, broadcast);
         && to' == Gets(to, Mail(i, m))
         && var posted := Posts(from, Letter(toId, m));
         && (from' == posted.(handler := Sending(sent + [toId], ids[1..], wire, broadcast)) || Fails(posted, from'))
       case Alarming(ids, reason) =>
         && ids != [] && ids[0] == toId
         && var m := ProcessError(reason);
         && to' == Gets(to, Mail(i, m))
         && from' == Alarms(from, Letter(toId, m)).(handler := Alarming(ids[1..], reason))
       case _ => false
  }

  // ---- steps of KeyGen itself ----

  function FanOut(legs: seq<Leg>, ready: map<PartyId, nat>): seq<Leg> {
    seq(|legs|, k requires 0 <= k < |legs| => if k in ready.Values then legs[k].(pc := SendStart) else legs[k])
  }

  predicate TakeReady(ses: Session, ses': Session, i: nat) {
    && i < |ses.legs| == |ses.req.parties|
    && ses.main.WaitReady? && ses.legs[i].pc.OfferReady?
    && var ready := ses.main.ready[ses.req.parties[i].id := i];
       var legs := ses.legs[i := ses.legs[i].(pc := Parked)];
       if |ready| == |ses.req.parties|
       then ses' == ses.(main := WaitFinish(ready, 0), legs := FanOut(legs, ready))
       else ses' == ses.(main := WaitReady(ready), legs := legs)
  }

  predicate TakeError(ses: Session, ses': Session, i: nat) {
    && i < |ses.legs|
    && !ses.main.Returned? && ses.legs[i].pc.OfferError?
    && ses' == ses.(main := Returned(ses.main.ready, Failure(ses.legs[i].pc.error)),
                    legs := ses.legs[i := ses.legs[i].(pc := ErrorTaken(ses.legs[i].pc.error))])
  }

  predicate TakeFinish(ses: Session, ses': Session, i: nat) {
    && i < |ses.legs|
    && ses.main.WaitFinish? && ses.legs[i].pc.OfferFinish?
    && var f := ses.legs[i].pc.finish;
       var cnt := ses.main.finishCnt + 1;
       && ses'.legs == ses.legs[i := ses.legs[i].(pc := FinishTaken)]
       && ses' == ses.(legs := ses'.legs, main :=
            if !f.isSuccess then Returned(ses.main.ready, Failure(f.failureReason))
            else if cnt == |ses.req.parties| then Returned(ses.main.ready, Success(f.publicKey))
            else WaitFinish(ses.main.ready, cnt))
  }

  predicate GiveUp(ses: Session, ses': Session) {
    && ses.ctxDone && !ses.main.Returned?
    && ses'.main.Returned? && ses'.main.result.Failure?
    && ses' == ses.(main := Returned(ses.main.ready, ses'.main.result))
  }

  // ---- the whole system ----

  datatype Step =
    | StartSession(sid: SessionId, req: Request)
    | ContextDone(sid: SessionId)
    | MainGivesUp(sid: SessionId)
    | MainTakesReady(sid: SessionId, i: nat)
    | MainTakesError(sid: SessionId, i: nat)
    | MainTakesFinish(sid: SessionId, i: nat)
    | GoroutineMoves(sid: SessionId, i: nat)
    | HandlerMoves(sid: SessionId, i: nat)
    | HandlerReads(sid: SessionId, i: nat, m: Mail)
    | HandlerStores(sid: SessionId, i: nat, op: StoreOp, ok: bool)
    | HandlerMails(sid: SessionId, i: nat, j: nat)

  /** Only leg `i` of the session changes, to `l'`. */
  predicate OneLeg(ses: Session, ses': Session, i: nat, l': Leg) {
    i < |ses.legs| && ses' == ses.(legs := ses.legs[i := l'])
  }

  ghost predicate SessionStep(c: Config, stores: map<PartyId, Store>, stores': map<PartyId, Store>,
                              ses: Session, ses': Session, step: Step)
    requires !step.StartSession?
  {
    match step
    case ContextDone(_) => stores' == stores && ses' == ses.(ctxDone := true)
    case MainGivesUp(_) => stores' == stores && GiveUp(ses, ses')
    case MainTakesReady(_, i) => stores' == stores && TakeReady(ses, ses', i)
    case MainTakesError(_, i) => stores' == stores && TakeError(ses, ses', i)
    case MainTakesFinish(_, i) => stores' == stores && TakeFinish(ses, ses', i)
    case GoroutineMoves(sid, i) =>
      && stores' == stores && i < |ses.legs| == |ses'.legs| == |ses.req.parties|
      && OneLeg(ses, ses', i, ses'.legs[i])
      && GoroutineStep(c, PrepareOf(sid, ses.req), ses.req.parties[i].id, ses.legs[i], ses'.legs[i])
    case HandlerMoves(_, i) =>
      && stores' == stores && i < |ses.legs| == |ses'.legs| == |ses.req.parties|
      && OneLeg(ses, ses', i, ses'.legs[i])
      && HandlerStep(c, ses.req.parties[i].id, ses.legs[i], ses'.legs[i])
    case HandlerReads(_, i, m) =>
      && stores' == stores && i < |ses.legs| == |ses'.legs|
      && OneLeg(ses, ses', i, ses'.legs[i])
      && UpdateStep(ses.legs[i], ses'.legs[i], m)
    case HandlerStores(_, i, op, ok) =>
      && i < |ses.legs| == |ses'.legs| == |ses.req.parties|
      && OneLeg(ses, ses', i, ses'.legs[i])
      && var id := ses.req.parties[i].id;
         && id in stores && id in stores' && stores' == stores[id := stores'[id]]
         && StoreStep(id, ses.legs[i], ses'.legs[i], stores[id], stores'[id], op, ok)
    case HandlerMails(_, i, j) =>
      && stores' == stores && i != j
      && i < |ses.legs| && j < |ses.legs| == |ses'.legs| == |ses.req.parties|
      && ses' == ses.(legs := ses.legs[i := ses'.legs[i]][j := ses'.legs[j]])
      && MailStep(i, ses.req.parties[i].id, ses.req.parties[j].id,
                  ses.legs[i], ses'.legs[i], ses.legs[j], ses'.legs[j])
  }

  /** Session ids are fresh. A request fits in a message frame, so its length fits in an int32. */
  ghost predicate NextStep(c: Config, s: State, s': State, step: Step) {
    if step.StartSession? then
      && step.sid !in s.sessions && ColonFree(step.sid) && |step.req.parties| <= MAX_INT32
      && s' == s.(sessions := s.sessions[step.sid := NewSession(step.req)])
    else
      && step.sid in s.sessions && step.sid in s'.sessions
      && s'.sessions == s.sessions[step.sid := s'.sessions[step.sid]]
      && SessionStep(c, s.stores, s'.stores, s.sessions[step.sid], s'.sessions[step.sid], step)
  }

  ghost predicate Init(c: Config, s: State) {
    && s.stores.Keys == c.nodes
    && (forall n :: n in s.stores ==> s.stores[n] == map[])
    && s.sessions == map[]
  }

  ghost predicate Next(c: Config, s: State, s': State) {
    exists step :: NextStep(c, s, s', step)
  }

  ghost predicate Run(c: Config, run: seq<State>) {
    && |run| > 0 && Init(c, run[0])
    && forall k :: 0 <= k < |run| - 1 ==> Next(c, run[k], run[k + 1])
  }
}
