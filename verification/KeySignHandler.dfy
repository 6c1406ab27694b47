/**
 * The key signing participant as a program on its storage, control stream and session network.
 * tss-lib's side of the event loop, the validator's decision, whether save data parses and the texts
 * of errors are parameters.
 */
module KeySignHandler {
  import opened Wrappers
  import opened TssTypes
  import opened KeyStore
  import opened Routing
  import opened Streams
  import opened KeySignSystem
  import M = Manager

  datatype HandlerError =
    | KeyDataNotFound
    | Rejected
    | SaveDataNotParsed
    | SendFailed
    | RecvFailed
    | InvalidMsgType
    | LocalPartyNotFound
    | FromPartyNotFound
    | NotParsed
    | NotSerialized
    | LocalFailed
    | ContextOver

  /** The node holds the named session ready: what KeySignSystem's theorems call the status guard. */
  predicate KeyIsReady(st: Store, p: KeySignPrepare) {
    EntryOfPrepare(p) in st && st[EntryOfPrepare(p)].status == StatusReady
  }

  const NO_SIGNATURE := Signature([], [], [])

  /** Why the handler does not get to send Ready, if it does not. */
  function Obstacle(st: Store, p: KeySignPrepare, agreed: bool, parses: GoString -> bool): (r: Option<HandlerError>)
    ensures StoreInv(st) && !parses([]) ==>
      (r.None? <==> KeyIsReady(st, p) && agreed && parses(st[EntryOfPrepare(p)].saveDataJson))
  {
    if EntryOfPrepare(p) !in st then Some(KeyDataNotFound)
    else
      assert StoreInv(st) ==> EntryOk(EntryOfPrepare(p), st[EntryOfPrepare(p)]);
      if !agreed then Some(Rejected)
      else if !parses(st[EntryOfPrepare(p)].saveDataJson) then Some(SaveDataNotParsed)
      else None
  }

  /** What the coordinator's answer to Ready means: the signers of the run to start, or nobody if the
      signing is cancelled. */
  function Answered(answer: Option<TssP2PMsg>, local: PartyId): Result<Option<seq<PartyID>>, HandlerError> {
    match answer
    case None => Failure(RecvFailed)
    case Some(KeySignCancelMsg) => Success(None)
    case Some(KeySignStartMsg(ids)) => if local in Ids(ids) then Success(Some(ids)) else Failure(LocalPartyNotFound)
    case Some(_) => Failure(InvalidMsgType)
  }

  /** How the handler gets to its local run: with the signers that Start names, with nobody when the
      signing is cancelled, or not at all. */
  function Opening(st: Store, p: KeySignPrepare, agreed: bool, parses: GoString -> bool, readyFails: bool,
                   answer: Option<TssP2PMsg>, local: PartyId): Result<Option<seq<PartyID>>, HandlerError>
  {
    var obstacle := Obstacle(st, p, agreed, parses);
    if obstacle.Some? then Failure(obstacle.value)
    else if readyFails then Failure(SendFailed)
    else Answered(answer, local)
  }

  /** What an event that does not pass makes of the run: what tss-lib produced is the success, an error
      of another signer is passed on with its reason, and everything else is an error. */
  function Verdict(event: Event<Signature>, signers: seq<PartyID>): Result<KeySignFinish, HandlerError> {
    match event
    case Produced(signature) => Success(KeySignFinish(true, [], signature))
    case Incoming(ProcessError(reason), _) => Success(KeySignFinish(false, reason, NO_SIGNATURE))
    case Incoming(ProcessUpdate(from, _, _), _) =>
      Failure(if from in Ids(signers) then NotParsed else FromPartyNotFound)
    case Outgoing(_, _) => Failure(NotSerialized)
    case LocalError => Failure(LocalFailed)
    case ContextDone => Failure(ContextOver)
  }

  /** What a loop that took the first `taken` events returns, unless a letter of the last failed. */
  function Outcome(events: seq<Event<Signature>>, taken: nat, signers: seq<PartyID>)
    : Result<KeySignFinish, HandlerError>
  {
    if 0 < taken <= |events| && !Passes(events[taken - 1], signers) then Verdict(events[taken - 1], signers)
    else Failure(ContextOver)
  }

  /** The Finish says how the loop ended: what was produced is a success with exactly that, an error of
      another signer is a failure with its reason, and every other end has the text of its error. */
  ghost predicate Reports(events: seq<Event<Signature>>, taken: nat, signers: seq<PartyID>, sendFailed: bool,
                          text: HandlerError -> GoString, finish: KeySignFinish)
  {
    if sendFailed then finish == KeySignFinish(false, text(SendFailed), NO_SIGNATURE)
    else if taken == 0 || taken > |events| then finish == KeySignFinish(false, text(ContextOver), NO_SIGNATURE)
    else match events[taken - 1]
      case Produced(signature) => finish == KeySignFinish(true, [], signature)
      case Incoming(ProcessError(reason), _) => finish == KeySignFinish(false, reason, NO_SIGNATURE)
      case Incoming(ProcessUpdate(from, _, _), parses) =>
        finish == KeySignFinish(false, text(if from !in Ids(signers) then FromPartyNotFound
                                            else if !parses then NotParsed else ContextOver), NO_SIGNATURE)
      case Outgoing(_, wire) =>
        finish == KeySignFinish(false, text(if wire.None? then NotSerialized else ContextOver), NO_SIGNATURE)
      case LocalError => finish == KeySignFinish(false, text(LocalFailed), NO_SIGNATURE)
      case ContextDone => finish == KeySignFinish(false, text(ContextOver), NO_SIGNATURE)
  }

  lemma LoopReports(fails: nat -> bool, events: seq<Event<Signature>>, taken: nat, signers: seq<PartyID>,
                    local: PartyId, before: seq<Letter>, sent: seq<Letter>, result: Result<KeySignFinish, HandlerError>,
                    text: HandlerError -> GoString, finish: KeySignFinish)
    requires LoopTook(fails, events, taken, signers, local, before, sent, result == Failure(SendFailed))
    requires result == Failure(SendFailed) || result == Outcome(events, taken, signers)
    requires finish == match result
                       case Success(f) => f
                       case Failure(error) => KeySignFinish(false, text(error), NO_SIGNATURE)
    ensures Reports(events, taken, signers, result == Failure(SendFailed), text, finish)
    ensures result == Failure(SendFailed) ==> 0 < taken <= |events| && Passes(events[taken - 1], signers)
  {
  }

  class KeySignHandler {
    const localId: PartyId
    const dev: bool
    const manager: M.Manager

    constructor (localId: PartyId, dev: bool, manager: M.Manager)
      ensures this.localId == localId && this.dev == dev && this.manager == manager
    {
      this.localId := localId;
      this.dev := dev;
      this.manager := manager;
    }

    /** Looks the key session up, asks the validator and parses the save data. The status is never
        looked at, yet only a ready entry gets through. */
    method FindKey(p: KeySignPrepare, accepts: bool, parses: GoString -> bool)
      returns (keyData: Result<KeyData, HandlerError>)
      requires manager.localStorage.Valid() && StoreInv(manager.localStorage.Map())
      requires ColonFree(p.keySessionId) && !parses([])
      ensures var st := manager.localStorage.Map();
        match Obstacle(st, p, dev || accepts, parses)
        case Some(error) => keyData == Failure(error)
        case None => EntryOfPrepare(p) in st && keyData == Success(st[EntryOfPrepare(p)])
    {
      var found := manager.GetKeyDataByKeyIdAndKeySessionIdFromStorage(p.keyId, p.keySessionId);
      if found.None? {
        return Failure(KeyDataNotFound);
      }
      if !dev && !accepts {
        return Failure(Rejected);
      }
      if !parses(found.value.saveDataJson) {
        return Failure(SaveDataNotParsed);
      }
      keyData := Success(found.value);
    }

    /** Sends Ready and waits for Start or Cancel: `Success(None)` is a cancelled signing. */
    method BecomeReady(stream: ControlStream) returns (signers: Result<Option<seq<PartyID>>, HandlerError>)
      modifies stream
      ensures stream.sent == old(stream.sent) + [KeySignReadyMsg]
      ensures signers == if stream.failsSend(|old(stream.sent)|) then Failure(SendFailed)
                         else Answered(Arrival(stream.failsRecv, old(stream.received), old(stream.inbox)), localId)
    {
      var ok := stream.SendMsg(KeySignReadyMsg);
      if !ok {
        return Failure(SendFailed);
      }
      var msg := stream.RecvMsg();
      if msg.None? {
        return Failure(RecvFailed);
      }
      match msg.value {
        case KeySignStartMsg(signPartyId) =>
          if localId !in Ids(signPartyId) {
            return Failure(LocalPartyNotFound);
          }
          signers := Success(Some(signPartyId));
        case KeySignCancelMsg => signers := Success(None);
        case _ => signers := Failure(InvalidMsgType);
      }
    }

    /**
     * handleKeySign0. Ready is sent exactly when the key session is ready, parses, and the validator
     * agrees. The local run gets the signers of the Start message, the message to sign and the
     * entry's save data and threshold, and what it puts out is what is returned.
     */
    method HandleKeySign0(stream: ControlStream, network: SessionNetwork, p: KeySignPrepare,
                          accepts: bool, parses: GoString -> bool, events: seq<Event<Signature>>, cancelText: GoString)
      returns (result: Result<KeySignFinish, HandlerError>, run: Option<SigningRun>, taken: nat)
      requires manager.localStorage.Valid() && StoreInv(manager.localStorage.Map())
      requires ColonFree(p.keySessionId) && !parses([])
      modifies stream, network
      ensures stream.sent == old(stream.sent)
        + if Obstacle(manager.localStorage.Map(), p, dev || accepts, parses).None? then [KeySignReadyMsg] else []
      ensures var st := manager.localStorage.Map();
        match Opening(st, p, dev || accepts, parses, stream.failsSend(|old(stream.sent)|),
                      Arrival(stream.failsRecv, old(stream.received), old(stream.inbox)), localId)
        case Failure(error) => result == Failure(error) && run == None && network.sent == old(network.sent)
        case Success(None) =>
          result == Success(KeySignFinish(false, cancelText, NO_SIGNATURE)) && run == None
          && network.sent == old(network.sent)
        case Success(Some(ids)) =>
          && KeyIsReady(st, p)
          && var d := st[EntryOfPrepare(p)];
          && run == Some(SigningRun(ids, p.signMsg, d.saveDataJson, d.threshold))
          && (result == Failure(SendFailed) || result == Outcome(events, taken, ids))
          && LoopTook(network.fails, events, taken, ids, localId, old(network.sent), network.sent,
                      result == Failure(SendFailed))
    {
      run, taken := None, 0;
      ghost var st := manager.localStorage.Map();
      var keyData := FindKey(p, accepts, parses);
      if keyData.Failure? {
        return Failure(keyData.error), None, 0;
      }
      assert Obstacle(st, p, dev || accepts, parses).None? && KeyIsReady(st, p);
      assert keyData.value == st[EntryOfPrepare(p)];
      var signers := BecomeReady(stream);
      assert Opening(st, p, dev || accepts, parses, stream.failsSend(|old(stream.sent)|),
                     Arrival(stream.failsRecv, old(stream.received), old(stream.inbox)), localId) == signers;
      match signers {
        case Failure(error) => result := Failure(error);
        case Success(None) => result := Success(KeySignFinish(false, cancelText, Signature([], [], [])));
        case Success(Some(ids)) =>
          run := Some(SigningRun(ids, p.signMsg, keyData.value.saveDataJson, keyData.value.threshold));
          result, taken := EventLoop(network, ids, events);
      }
    }

    /** The event loop: updates are passed on and sent out until a finish, an error or the end of the
        context; it succeeds only with what the local run puts out. */
    method EventLoop(network: SessionNetwork, signers: seq<PartyID>, events: seq<Event<Signature>>)
      returns (result: Result<KeySignFinish, HandlerError>, taken: nat)
      modifies network
      ensures LoopTook(network.fails, events, taken, signers, localId, old(network.sent), network.sent,
                       result == Failure(SendFailed))
      ensures result == Failure(SendFailed) || result == Outcome(events, taken, signers)
    {
      taken := 0;
      ghost var before := network.sent;
      assert events[..0] == [];
      while taken < |events|
        invariant LoopRuns(network.fails, events, taken, signers, localId, before, network.sent)
      {
        ghost var mid := network.sent;
        var done := TakeEvent(network, signers, events[taken]);
        if done.Some? {
          LoopEnds(network.fails, events, taken, signers, localId, before, mid, network.sent,
                   done.value == Failure(SendFailed));
          return done.value, taken + 1;
        }
        LoopGoesOn(network.fails, events, taken, signers, localId, before, mid, network.sent);
        taken := taken + 1;
      }
      LoopIsThrough(network.fails, events, signers, localId, before, network.sent);
      result := Failure(ContextOver);
    }

    /** One turn of the loop: what ends it, if anything does. */
    method TakeEvent(network: SessionNetwork, signers: seq<PartyID>, event: Event<Signature>)
      returns (done: Option<Result<KeySignFinish, HandlerError>>)
      modifies network
      ensures EventTook(network.fails, event, signers, localId, old(network.sent), network.sent,
                        done == Some(Failure(SendFailed)))
      ensures !Passes(event, signers) ==> done == Some(Verdict(event, signers))
      ensures Passes(event, signers) ==> done == None || done == Some(Failure(SendFailed))
    {
      match event {
        case ContextDone => done := Some(Failure(ContextOver));
        case LocalError => done := Some(Failure(LocalFailed));
        case Incoming(ProcessUpdate(from, _, _), parses) =>
          done := if from !in Ids(signers) then Some(Failure(FromPartyNotFound))
                  else if !parses then Some(Failure(NotParsed)) else None;
        case Incoming(ProcessError(reason), _) =>
          done := Some(Success(KeySignFinish(false, reason, Signature([], [], []))));
        case Outgoing(_, None) => done := Some(Failure(NotSerialized));
        case Outgoing(to, Some(wire)) =>
          var addressees: seq<PartyId>;
          if to.None? {
            addressees := CollectOthers(signers, localId);
          } else {
            addressees := to.value;
          }
          var ok := network.SendAll(addressees, ProcessUpdate(localId, wire, to.None?));
          done := if ok then None else Some(Failure(SendFailed));
        case Produced(signature) => done := Some(Success(KeySignFinish(true, [], signature)));
      }
    }

    /**
     * handleKeySign. One Finish is the last thing sent, after Ready only with the key ready. It says
     * what came of the signing: the signature that the local run put out is never lost, an error of
     * another signer or a Cancel gives its reason, and an error of its own gives its text.
     */
    method HandleKeySign(stream: ControlStream, network: SessionNetwork, accepts: bool, parses: GoString -> bool,
                         events: seq<Event<Signature>>, cancelText: GoString, text: HandlerError -> GoString)
      returns (prepare: Option<KeySignPrepare>, finish: KeySignFinish, run: Option<SigningRun>, taken: nat,
               sendFailed: bool)
      requires manager.localStorage.Valid() && StoreInv(manager.localStorage.Map()) && !parses([])
      requires forall m :: m in stream.inbox && m.KeySignPrepareMsg? ==> ColonFree(m.keySignPrepare.keySessionId)
      modifies stream, network
      ensures var first := Arrival(stream.failsRecv, old(stream.received), old(stream.inbox));
        if first.Some? && first.value.KeySignPrepareMsg? then prepare == Some(first.value.keySignPrepare)
        else
          && prepare == None && run == None && network.sent == old(network.sent)
          && finish == KeySignFinish(false, text(if first.None? then RecvFailed else InvalidMsgType), NO_SIGNATURE)
          && stream.sent == old(stream.sent) + [KeySignFinishMsg(finish)]
      ensures prepare.Some? ==>
        stream.sent == old(stream.sent)
          + (if Obstacle(manager.localStorage.Map(), prepare.value, dev || accepts, parses).None?
             then [KeySignReadyMsg] else [])
          + [KeySignFinishMsg(finish)]
      ensures prepare.Some? ==>
        var st := manager.localStorage.Map();
        match Opening(st, prepare.value, dev || accepts, parses, stream.failsSend(|old(stream.sent)|),
                      Arrival(stream.failsRecv, old(stream.received) + 1, old(stream.inbox)[1..]), localId)
        case Failure(error) => run == None && finish == KeySignFinish(false, text(error), NO_SIGNATURE)
        case Success(None) => run == None && finish == KeySignFinish(false, cancelText, NO_SIGNATURE)
        case Success(Some(ids)) =>
          && KeyIsReady(st, prepare.value)
          && var d := st[EntryOfPrepare(prepare.value)];
          && run == Some(SigningRun(ids, prepare.value.signMsg, d.saveDataJson, d.threshold))
      ensures run.None? ==> network.sent == old(network.sent)
      ensures run.Some? ==>
        && LoopTook(network.fails, events, taken, run.value.signers, localId, old(network.sent), network.sent,
                    sendFailed)
        && Reports(events, taken, run.value.signers, sendFailed, text, finish)
    {
      prepare, run, taken, sendFailed := None, None, 0, false;
      var msg := stream.RecvMsg();
      if msg.None? || !msg.value.KeySignPrepareMsg? {
        finish := KeySignFinish(false, text(if msg.None? then RecvFailed else InvalidMsgType), Signature([], [], []));
      } else {
        prepare := Some(msg.value.keySignPrepare);
        var result;
        result, run, taken := HandleKeySign0(stream, network, prepare.value, accepts, parses, events, cancelText);
        sendFailed := run.Some? && result == Failure(SendFailed);
        finish := match result
          case Success(f) => f
          case Failure(error) => KeySignFinish(false, text(error), Signature([], [], []));
        if run.Some? {
          LoopReports(network.fails, events, taken, run.value.signers, localId, old(network.sent), network.sent, result,
                      text, finish);
        }
      }
      var _ := stream.SendMsg(KeySignFinishMsg(finish));
    }
  }
}
