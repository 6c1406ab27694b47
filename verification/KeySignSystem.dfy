/**
 * A signing session as a whole: the coordinator of KeySignModel, a handler at the far end of every
 * stream, and the nodes' stores, which key generation goes on changing meanwhile. Streams are
 * first-in first-out; any send or receive may fail, a failed send may yet have delivered, and a
 * session message that was sent may reach nobody.
 */
module KeySignSystem {
  import opened Wrappers
  import opened TssTypes
  import opened KeyStore
  import opened Routing
  import opened Mailing
  import M = KeySignModel

  datatype SignConfig = SignConfig(co: M.Config, nodes: set<PartyId>, dev: set<PartyId>)

  /** What a local signing run of tss-lib was started with. */
  datatype SigningRun = SigningRun(signers: seq<PartyID>, signMsg: Bytes, saveData: GoString, threshold: int32)

  datatype SignHandler =
    | Absent
    | HearPrepare
    | Lookup
    | Validate
    | Parse
    | TellReady
    | HearStart
    | Sign
    | Broadcast(sent: seq<PartyId>, to: seq<PartyId>, wire: Bytes, broadcast: bool)
    | TellFinish(finish: KeySignFinish)
    | Done

  /**
   * The participant's end of one stream. `down`, `up` and `log` are the messages ever delivered on
   * it, with how many were read; `data` is the key data that the handler looked up, `run` what it
   * started tss-lib with, `signed` what tss-lib put out, `mail` the session messages not yet read and
   * `trail` all that it did with session messages.
   */
  datatype End = End(
    handler: SignHandler,
    down: seq<TssP2PMsg>, downRead: nat,
    up: seq<TssP2PMsg>, upRead: nat,
    log: seq<TssP2PMsg>,
    prepare: Option<KeySignPrepare>,
    data: Option<KeyData>,
    accepted: bool,
    run: Option<SigningRun>,
    signed: Option<Signature>,
    mail: multiset<Mail>,
    trail: Trail)

  datatype Sys = Sys(co: M.State, stores: map<PartyId, Store>, ends: seq<End>)

  function NewEnd(): End {
    End(Absent, [], 0, [], 0, [], None, None, false, None, None, multiset{}, NO_TRAIL)
  }

  /** Nothing has happened in the session; the stores are as key generation left them. */
  ghost predicate Init(c: SignConfig, s: Sys) {
    && M.WellFormed(c.co)
    && s.co == M.NewState(c.co)
    && s.stores.Keys == c.nodes
    && (forall n :: n in s.stores ==> StoreInv(s.stores[n]))
    && s.ends == seq(|c.co.parties|, _ => NewEnd())
  }

  datatype KeySignRequest = KeySignRequest(signId: GoString, keyId: KeyId, signMsg: Bytes)

  /** What KeySign works with: it takes the parties, the threshold and the key session from the key data
      that its look-up found, and the rest from the request. */
  function SetUp(request: KeySignRequest, sessionId: SessionId, found: KeyData): M.Config {
    M.Config(found.allPartyId, found.threshold,
             KeySignPrepare(request.signId, sessionId, request.keyId, found.keySessionId, request.signMsg))
  }

  // ---- the participant ----

  function SignDown(e: End, m: TssP2PMsg): End {
    e.(down := e.down + [m], log := e.log + [m])
  }

  function SignUp(e: End, m: TssP2PMsg): End {
    e.(up := e.up + [m], log := e.log + [m])
  }

  /** The handler goes on to report a failure. */
  predicate GivesUp(e: End, e': End) {
    && e'.handler.TellFinish? && !e'.handler.finish.isSuccess
    && e' == e.(handler := e'.handler)
  }

  function Posts(e: End, letter: Letter): End {
    e.(trail := e.trail.(posted := e.trail.posted + [letter]))
  }

  function Gets(e: End, m: Mail): End {
    e.(mail := e.mail + multiset{m}, trail := e.trail.(got := e.trail.got + multiset{m}))
  }

  function EntryOfPrepare(p: KeySignPrepare): EntryId {
    EntryId(p.keyId, p.keySessionId)
  }

  /** What the participant does with a message that it reads while waiting for Start. */
  predicate HearsStart(id: PartyId, e: End, e': End, m: TssP2PMsg) {
    match m
    case KeySignStartMsg(signers) =>
      if id in Ids(signers) && e.prepare.Some? && e.data.Some? then
        e' == e.(handler := Sign,
                 run := Some(SigningRun(signers, e.prepare.value.signMsg, e.data.value.saveDataJson,
                                        e.data.value.threshold)))
      else GivesUp(e, e')
    case _ => GivesUp(e, e')
  }

  /** Steps of the handler on its own stream and store. json.Unmarshal fails on the empty string. */
  predicate SignHandlerStep(c: SignConfig, id: PartyId, st: Store, e: End, e': End) {
    match e.handler
    case HearPrepare =>
      || GivesUp(e, e')
      || (e.downRead < |e.down| &&
          var read := e.(downRead := e.downRead + 1);
          match e.down[e.downRead]
          case KeySignPrepareMsg(p) => e' == read.(prepare := Some(p), handler := Lookup)
          case _ => GivesUp(read, e'))
    case Lookup =>
      && e.prepare.Some?
      && (if EntryOfPrepare(e.prepare.value) in st
          then e' == e.(data := Some(st[EntryOfPrepare(e.prepare.value)]), handler := Validate)
          else GivesUp(e, e'))
    case Validate =>
      if id in c.dev then e' == e.(handler := Parse)
      else e' == e.(handler := Parse, accepted := true) || GivesUp(e, e')
    case Parse =>
      && e.data.Some?
      && (|| GivesUp(e, e')
          || (e.data.value.saveDataJson != [] && e' == e.(handler := TellReady)))
    case TellReady =>
      || e' == SignUp(e, KeySignReadyMsg).(handler := HearStart)
      || GivesUp(e, e')
      || GivesUp(SignUp(e, KeySignReadyMsg), e')
    case HearStart =>
      || GivesUp(e, e')
      || (e.downRead < |e.down| && HearsStart(id, e.(downRead := e.downRead + 1), e', e.down[e.downRead]))
    case Sign =>
      || GivesUp(e, e')
      || (e'.handler.Broadcast? && e.run.Some?
          && var h := e'.handler;
             && e' == e.(handler := h,
                         trail := e.trail.(puts := e.trail.puts + [Put(h.wire, h.broadcast, h.to)]))
             && h.sent == [] && Addressed(e.run.value.signers, id, h.to, h.broadcast))
      || (e'.signed.Some?
          && e' == e.(signed := e'.signed, handler := TellFinish(KeySignFinish(true, [], e'.signed.value))))
    case Broadcast(sent, to, wire, broadcast) =>
      || GivesUp(e, e')
      || (to == [] && e' == e.(handler := Sign))
      || (to != [] &&
          e' == Posts(e, Letter(to[0], ProcessUpdate(id, wire, broadcast)))
                  .(handler := Broadcast(sent + [to[0]], to[1..], wire, broadcast)))
    case TellFinish(finish) =>
      || e' == e.(handler := Done)
      || e' == SignUp(e, KeySignFinishMsg(finish)).(handler := Done)
    case _ => false
  }

  /** The event loop reads a session message. */
  predicate SignReads(e: End, e': End, m: Mail) {
    && e.handler.Sign? && e.run.Some? && m in e.mail
    && var read := e.(mail := e.mail - multiset{m});
       match m.msg
       case ProcessUpdate(from, _, _) =>
         if from in Ids(e.run.value.signers) then e' == read || GivesUp(read, e') else GivesUp(read, e')
       case ProcessError(reason) => GivesUp(read, e') && e'.handler.finish.failureReason == reason
  }

  predicate Listens(h: SignHandler) {
    !(h.Absent? || h.HearPrepare? || h.Done?)
  }

  /** The handler listed at `i` delivers its next session message to another. */
  predicate SignMails(i: nat, fromId: PartyId, toId: PartyId, from: End, from': End, to: End, to': End) {
    && Listens(to.handler) && from.handler.Broadcast?
    && var h := from.handler;
       && h.to != [] && h.to[0] == toId
       && var m := ProcessUpdate(fromId, h.wire, h.broadcast);
       && to' == Gets(to, Mail(i, m))
       && var posted := Posts(from, Letter(toId, m));
       && (from' == posted.(handler := Broadcast(h.sent + [toId], h.to[1..], h.wire, h.broadcast))
           || GivesUp(posted, from'))
  }

  // ---- the stream under a step of the coordinator ----

  predicate Delivered(e: End, e': End, m: TssP2PMsg, sure: bool) {
    e' == SignDown(e, m) || (!sure && e' == e)
  }

  /** What a goroutine's move does to the far end. */
  predicate NetEffect(c: SignConfig, id: PartyId, signers: seq<PartyID>, ctxDone: bool, pc: M.Goroutine, net: M.Net,
                      e: End, e': End)
  {
    match pc
    case Begin =>
      if net.Quiet? && !ctxDone then id in c.nodes && e' == e.(handler := HearPrepare) else e' == e
    case SendPrepare => Delivered(e, e', KeySignPrepareMsg(c.co.prepare), net.Quiet?)
    case Begin2 =>
      if ctxDone then e' == e else Delivered(e, e', KeySignStartMsg(signers), net.Quiet?)
    case _ =>
      (match net
       case Delivers(m) => e.upRead < |e.up| && e.up[e.upRead] == m && e' == e.(upRead := e.upRead + 1)
       case _ => e' == e)
  }

  ghost predicate CoordinatorStep(c: SignConfig, s: Sys, s': Sys, step: M.Step) {
    && s'.stores == s.stores && |s'.ends| == |s.ends| == |c.co.parties| == |s.co.legs|
    && M.NextStep(c.co, s.co, s'.co, step)
    && match step
       case LegMoves(i, net) =>
         && i < |s.ends| && s'.ends == s.ends[i := s'.ends[i]]
         && NetEffect(c, c.co.parties[i].id, s.co.signers, s.co.ctxDone, s.co.legs[i].pc, net, s.ends[i], s'.ends[i])
       case CancellerMoves =>
         if s.co.canceller.HasStream? then
           var i := s.co.canceller.i;
           && i < |s.ends| && s'.ends == s.ends[i := s'.ends[i]]
           && Delivered(s.ends[i], s'.ends[i], KeySignCancelMsg, false)
         else s'.ends == s.ends
       case _ => s'.ends == s.ends
  }

  // ---- all steps ----

  datatype Step =
    | Coordinator(step: M.Step)
    | StoreMoves(n: PartyId)
    | HandlerMoves(i: nat)
    | HandlerReads(i: nat, m: Mail)
    | HandlerMails(i: nat, j: nat)

  ghost predicate NextStep(c: SignConfig, s: Sys, s': Sys, step: Step) {
    match step
    case Coordinator(step) => CoordinatorStep(c, s, s', step)
    case StoreMoves(n) =>
      && n in s.stores && n in s'.stores
      && s' == s.(stores := s.stores[n := s'.stores[n]]) && StoreNext(s.stores[n], s'.stores[n])
    case HandlerMoves(i) =>
      && i < |s.ends| == |s'.ends| == |c.co.parties| && s' == s.(ends := s.ends[i := s'.ends[i]])
      && c.co.parties[i].id in s.stores
      && SignHandlerStep(c, c.co.parties[i].id, s.stores[c.co.parties[i].id], s.ends[i], s'.ends[i])
    case HandlerReads(i, m) =>
      && i < |s.ends| == |s'.ends| && s' == s.(ends := s.ends[i := s'.ends[i]])
      && SignReads(s.ends[i], s'.ends[i], m)
    case HandlerMails(i, j) =>
      && i < |s.ends| && j < |s.ends| == |s'.ends| == |c.co.parties| && i != j
      && s' == s.(ends := s.ends[i := s'.ends[i]][j := s'.ends[j]])
      && SignMails(i, c.co.parties[i].id, c.co.parties[j].id, s.ends[i], s'.ends[i], s.ends[j], s'.ends[j])
  }

  ghost predicate Next(c: SignConfig, s: Sys, s': Sys) {
    exists step :: NextStep(c, s, s', step)
  }

  ghost predicate Run(c: SignConfig, run: seq<Sys>) {
    && |run| > 0 && Init(c, run[0])
    && forall k :: 0 <= k < |run| - 1 ==> Next(c, run[k], run[k + 1])
  }
}
