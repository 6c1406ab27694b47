/**
 * The key generation participant as a program on its storage, control stream and session network.
 * tss-lib's side of the event loop, the validator's decision and the texts of errors are parameters.
 */
module KeyGenHandler {
  import opened Wrappers
  import opened TssTypes
  import opened KeyStore
  import opened Routing
  import opened Streams
  import opened Storage
  import G = KeyGenModel
  import M = Manager

  /** Serialized keys and JSON texts are never empty. */
  type NonEmpty = b: Bytes | b != [] witness [0]

  /** What the local run puts out, unless it does not convert. */
  datatype Output = Output(saveDataJson: NonEmpty, pubKey: NonEmpty)

  datatype HandlerError =
    | Refused(error: M.StorageError)
    | Rejected
    | SendFailed
    | RecvFailed
    | InvalidMsgType
    | LocalPartyNotFound
    | FromPartyNotFound
    | NotParsed
    | NotSerialized
    | NotConverted
    | NotStored
    | LocalFailed
    | ContextOver

  // ---- what is stored ----

  /** The session's entry as the Prepare names it, ready with both parts of what the local run put out. */
  function ReadyEntry(p: KeyGenPrepare, out: Output, created: int, updated: int): KeyData {
    KeyData(p.keyId, p.sessionId, p.threshold, p.allPartyId, out.pubKey, StatusReady, out.saveDataJson,
            created, updated)
  }

  /** The same entry failed. */
  function FailedEntry(p: KeyGenPrepare, created: int, updated: int): KeyData {
    KeyData(p.keyId, p.sessionId, p.threshold, p.allPartyId, [], StatusError, [], created, updated)
  }

  /** The same entry still pending. */
  function WaitingEntry(p: KeyGenPrepare, created: int): KeyData {
    KeyData(p.keyId, p.sessionId, p.threshold, p.allPartyId, [], StatusPending, [], created, created)
  }

  predicate IsPending(st: Store, e: EntryId) {
    e in st && st[e].status == StatusPending
  }

  /** The store with the session's entry failed, if that was pending. */
  function Unpended(st: Store, e: EntryId, updated: int): Store {
    if IsPending(st, e)
    then st[e := st[e].(pubkey := [], status := StatusError, saveDataJson := [], updatedTime := updated)] else st
  }

  // ---- the storage calls are those of the machine ----

  /** Where the machine's handler may make a storage call. */
  ghost predicate MayCall(l: G.Leg, op: StoreOp) {
    match op
    case Begin(_, _, _, _) => l.handler.CheckStore?
    case Commit(_, _, _, _) => l.handler.Running?
    case Abort(_, _) => l.handler.Failing? || (l.handler.Running? && exists m :: m in l.mail && m.msg.ProcessError?)
  }

  /** Wherever the machine's handler for this Prepare may make the call, it makes it with this effect. */
  ghost predicate Stores(p: KeyGenPrepare, st: Store, op: StoreOp, ok: bool, st': Store) {
    forall id, l: G.Leg :: l.prepare == Some(p) && MayCall(l, op) ==> Steps(id, l, st, op, ok, st')
  }

  ghost predicate Steps(id: PartyId, l: G.Leg, st: Store, op: StoreOp, ok: bool, st': Store) {
    exists l' :: G.StoreStep(id, l, l', st, st', op, ok)
  }

  lemma StoresLike(p: KeyGenPrepare, st: Store, op: StoreOp, ok: bool, st': Store)
    requires Apply(st, op, ok, st') && op.e == EntryOf(p)
    requires op.Begin? ==> op.threshold == p.threshold && op.parties == p.allPartyId
    ensures Stores(p, st, op, ok, st')
  {
    forall id, l: G.Leg | l.prepare == Some(p) && MayCall(l, op) ensures Steps(id, l, st, op, ok, st') {
      var l' := match op
        case Begin(_, _, _, _) => l.(handler := if ok then G.Validating else G.Failing([]))
        case Commit(_, pubkey, _, _) =>
          if ok then l.(handler := G.Finishing(KeyGenFinish(true, [], pubkey)), produced := Some(pubkey))
          else l.(handler := G.Failing([]))
        case Abort(_, _) =>
          if l.handler.Failing? then
            l.(handler := G.Alarming(Others(p.allPartyId, id), l.handler.reason),
               trail := l.trail.(alarm := Some(l.handler.reason)))
          else
            var m :| m in l.mail && m.msg.ProcessError?;
            l.(mail := l.mail - multiset{m}, handler := G.Finishing(KeyGenFinish(false, m.msg.errorMsg, [])));
      assert G.StoreStep(id, l, l', st, st', op, ok);
    }
  }

  /** What a handler leaves keeps the invariant of the store. */
  lemma SettledKeepsInv(st: Store, p: KeyGenPrepare, ran: bool, last: Event<Option<Output>>, created: int, updated: int)
    requires StoreInv(st)
    ensures StoreInv(Settled(st, p, ran, last, created, updated))
  {
    if LiveInScan(st, p.keyId) {
      var st' := Unpended(st, EntryOf(p), updated);
      OpKeepsInv(st, Abort(EntryOf(p), updated), IsPending(st, EntryOf(p)), st');
    } else {
      var e := EntryOf(p);
      forall f | f in st && f != e && f.keyId == e.keyId ensures !Live(st[f]) {
        assert InScan(e.keyId, f.keyId);
      }
    }
  }

  lemma SameEntry(st: Store, e: EntryId, d: KeyData)
    requires e in st && st[e] == d
    ensures st[e := d] == st
  {
  }

  /** A loop that took every event and passed them leaves the entry pending. */
  lemma NothingLeft(st: Store, p: KeyGenPrepare, events: seq<Event<Option<Output>>>, created: int, updated: int)
    requires EntryOf(p) in st && st[EntryOf(p)] == WaitingEntry(p, created)
    requires events != [] ==> Passes(events[|events| - 1], p.allPartyId)
    ensures AfterLoop(st, p, LastTaken(events, |events|), created, updated) == st
  {
    SameEntry(st, EntryOf(p), WaitingEntry(p, created));
  }

  lemma SecondEntryStays(st: Store, e: EntryId, d: KeyData, d': KeyData)
    ensures st[e := d][e := d'] == st[e := d']
  {
  }

  /** When handleKeyGen0 succeeds, nothing is left to settle. */
  lemma AlreadySettled(st: Store, p: KeyGenPrepare, events: seq<Event<Option<Output>>>, taken: nat,
                       created: int, updated: int)
    requires Outcome(events, taken, p.allPartyId).Success?
    ensures var last := LastTaken(events, taken);
      AfterHandleKeyGen0(st, p, true, last, created, updated) ==
        if LiveInScan(st, p.keyId) then st else Settled(st, p, true, last, created, updated)
  {
  }

  /** handleKeyGen settles what handleKeyGen0 left. */
  lemma SettlesTheRest(st: Store, p: KeyGenPrepare, ran: bool, last: Event<Option<Output>>, created: int, updated: int)
    requires !(ran && last.Produced? && last.output.Some?)
    ensures var left := AfterHandleKeyGen0(st, p, ran, last, created, updated);
      Unpended(left, EntryOf(p), updated) == Settled(st, p, ran, last, created, updated)
  {
    if !LiveInScan(st, p.keyId) {
      SecondEntryStays(st, EntryOf(p), WaitingEntry(p, created), FailedEntry(p, created, updated));
    }
  }

  // ---- what comes of a run ----

  /** The error of a refusal: that of the first pending or ready entry that the scan meets. */
  function RefusalError(db: seq<Record>, keyId: KeyId): Option<HandlerError> {
    match M.Refusal(WithPrefix(db, ScanPrefix(keyId)))
    case Some(error) => Some(Refused(error))
    case None => None
  }

  /** Why no local run is started once the entry is pending, if none is. */
  function Obstacle(p: KeyGenPrepare, agreed: bool, readyFails: bool, answer: Option<TssP2PMsg>, local: PartyId)
    : Option<HandlerError>
  {
    if !agreed then Some(Rejected)
    else if readyFails then Some(SendFailed)
    else if answer == None then Some(RecvFailed)
    else if answer != Some(KeyGenStartMsg) then Some(InvalidMsgType)
    else if local !in Ids(p.allPartyId) then Some(LocalPartyNotFound)
    else None
  }

  /** What an event that does not pass makes of the run: what tss-lib produced is the success, an error
      of another member is passed on with its reason, and everything else is an error. */
  function Verdict(event: Event<Option<Output>>, parties: seq<PartyID>): Result<KeyGenFinish, HandlerError> {
    match event
    case Produced(Some(out)) => Success(KeyGenFinish(true, [], out.pubKey))
    case Produced(None) => Failure(NotConverted)
    case Incoming(ProcessError(reason), _) => Success(KeyGenFinish(false, reason, []))
    case Incoming(ProcessUpdate(from, _, _), _) =>
      Failure(if from in Ids(parties) then NotParsed else FromPartyNotFound)
    case Outgoing(_, _) => Failure(NotSerialized)
    case LocalError => Failure(LocalFailed)
    case ContextDone => Failure(ContextOver)
  }

  /** The last event that the loop took. */
  function LastTaken<O>(events: seq<Event<O>>, taken: nat): Event<O> {
    if 0 < taken <= |events| then events[taken - 1] else ContextDone
  }

  /** What a loop that took the first `taken` events returns, unless a letter of the last failed. */
  function Outcome(events: seq<Event<Option<Output>>>, taken: nat, parties: seq<PartyID>)
    : Result<KeyGenFinish, HandlerError>
  {
    var last := LastTaken(events, taken);
    if Passes(last, parties) then Failure(ContextOver) else Verdict(last, parties)
  }

  /** The session's entry when the loop is left. */
  function EntryAfter(p: KeyGenPrepare, last: Event<Option<Output>>, created: int, updated: int): KeyData {
    match last
    case Produced(Some(out)) => ReadyEntry(p, out, created, updated)
    case Incoming(ProcessError(_), _) => FailedEntry(p, created, updated)
    case _ => WaitingEntry(p, created)
  }

  /** The session's entry when the handler is done. */
  function EntryAtLast(p: KeyGenPrepare, last: Event<Option<Output>>, created: int, updated: int): KeyData {
    if last.Produced? && last.output.Some? then ReadyEntry(p, last.output.value, created, updated)
    else FailedEntry(p, created, updated)
  }

  /** The Finish says how the loop ended: what was produced is a success with exactly that, an error of
      another member is a failure with its reason, and every other end has the text of its error. */
  predicate Reports(event: Event<Option<Output>>, parties: seq<PartyID>, sendFailed: bool,
                    text: HandlerError -> GoString, finish: KeyGenFinish)
  {
    if sendFailed then finish == KeyGenFinish(false, text(SendFailed), [])
    else match event
      case Produced(Some(out)) => finish == KeyGenFinish(true, [], out.pubKey)
      case Produced(None) => finish == KeyGenFinish(false, text(NotConverted), [])
      case Incoming(ProcessError(reason), _) => finish == KeyGenFinish(false, reason, [])
      case Incoming(ProcessUpdate(from, _, _), parses) =>
        finish == KeyGenFinish(false, text(if from !in Ids(parties) then FromPartyNotFound
                                           else if !parses then NotParsed else ContextOver), [])
      case Outgoing(_, wire) =>
        finish == KeyGenFinish(false, text(if wire.None? then NotSerialized else ContextOver), [])
      case LocalError => finish == KeyGenFinish(false, text(LocalFailed), [])
      case ContextDone => finish == KeyGenFinish(false, text(ContextOver), [])
  }

  /** What every other member is told when the handler itself fails. */
  function AlarmLetters(p: KeyGenPrepare, local: PartyId, failed: Option<HandlerError>, text: HandlerError -> GoString)
    : seq<Letter>
  {
    if failed.None? then [] else Letters(Others(p.allPartyId, local), ProcessError(text(failed.value)))
  }

  /** The letters before the last ones. */
  function Before<T>(whole: seq<T>, end: seq<T>): seq<T> {
    if |end| <= |whole| then whole[..|whole| - |end|] else []
  }

  /** The store when the loop is left. */
  function AfterLoop(st: Store, p: KeyGenPrepare, last: Event<Option<Output>>, created: int, updated: int): Store {
    st[EntryOf(p) := EntryAfter(p, last, created, updated)]
  }

  /** The store when handleKeyGen0 returns. */
  ghost function AfterHandleKeyGen0(st: Store, p: KeyGenPrepare, ran: bool, last: Event<Option<Output>>,
                                    created: int, updated: int): Store
  {
    if LiveInScan(st, p.keyId) then st
    else if ran then AfterLoop(st, p, last, created, updated)
    else st[EntryOf(p) := WaitingEntry(p, created)]
  }

  /** The store when the handler is done. */
  ghost function Settled(st: Store, p: KeyGenPrepare, ran: bool, last: Event<Option<Output>>,
                         created: int, updated: int): Store
  {
    if LiveInScan(st, p.keyId) then Unpended(st, EntryOf(p), updated)
    else st[EntryOf(p) := if ran then EntryAtLast(p, last, created, updated) else FailedEntry(p, created, updated)]
  }

  /** All that was sent to other members: what the events say, and then the alarm. */
  ghost predicate Told(p: KeyGenPrepare, local: PartyId, before: seq<Letter>, sent: seq<Letter>, fails: nat -> bool,
                       events: seq<Event<Option<Output>>>, ran: bool, taken: nat, failed: Option<HandlerError>,
                       text: HandlerError -> GoString)
  {
    var alarm := AlarmLetters(p, local, failed, text);
    var looped := Before(sent, alarm);
    && sent == looped + alarm
    && if ran then LoopTook(fails, events, taken, p.allPartyId, local, before, looped, failed == Some(SendFailed))
       else looped == before
  }

  lemma TellsNoMore(p: KeyGenPrepare, local: PartyId, before: seq<Letter>, mid: seq<Letter>, alarm: seq<Letter>,
                    fails: nat -> bool, events: seq<Event<Option<Output>>>, ran: bool, taken: nat,
                    failed: Option<HandlerError>, text: HandlerError -> GoString)
    requires alarm == AlarmLetters(p, local, failed, text)
    requires if ran then LoopTook(fails, events, taken, p.allPartyId, local, before, mid, failed == Some(SendFailed))
             else mid == before
    ensures Told(p, local, before, mid + alarm, fails, events, ran, taken, failed, text)
  {
    assert Before(mid + alarm, alarm) == mid;
  }

  lemma LoopReports(events: seq<Event<Option<Output>>>, taken: nat, parties: seq<PartyID>,
                    result: Result<KeyGenFinish, HandlerError>, text: HandlerError -> GoString, finish: KeyGenFinish)
    requires result == Failure(SendFailed) || result == Outcome(events, taken, parties)
    requires finish == match result
                       case Success(f) => f
                       case Failure(error) => KeyGenFinish(false, text(error), [])
    ensures Reports(LastTaken(events, taken), parties, result == Failure(SendFailed), text, finish)
  {
  }

  class KeyGenHandler {
    const localId: PartyId
    const dev: bool
    const manager: M.Manager

    constructor (localId: PartyId, dev: bool, manager: M.Manager)
      ensures this.localId == localId && this.dev == dev && this.manager == manager
    {
      this.localId := localId;
      this.dev := dev;
      this.manager := manager;
    }

    /**
     * handleKeyGen0. Unless a pending or ready entry is in its way, the session's entry is set pending
     * as the Prepare says, and then made ready with what the local run puts out, failed on another
     * member's error, or left pending when it fails itself. No other entry changes. Ready is sent
     * exactly when the entry was set pending and the validator, unless in dev mode, agreed.
     */
    method HandleKeyGen0(stream: ControlStream, network: SessionNetwork, p: KeyGenPrepare, accepts: bool,
                         events: seq<Event<Option<Output>>>, created: int, updated: int)
      returns (result: Result<KeyGenFinish, HandlerError>, ran: bool, taken: nat)
      requires manager.localStorage.Valid() && ColonFree(p.sessionId)
      modifies manager.localStorage, stream, network
      ensures manager.localStorage.Valid()
      ensures manager.localStorage.Map() ==
        AfterHandleKeyGen0(old(manager.localStorage.Map()), p, ran, LastTaken(events, taken), created, updated)
      ensures ran ==> !LiveInScan(old(manager.localStorage.Map()), p.keyId)
      ensures !ran ==> network.sent == old(network.sent)
      ensures if LiveInScan(old(manager.localStorage.Map()), p.keyId) then
          && result.Failure? && Some(result.error) == RefusalError(old(manager.localStorage.db), p.keyId)
          && stream.sent == old(stream.sent)
        else
          && stream.sent == old(stream.sent) + (if dev || accepts then [KeyGenReadyMsg] else [])
          && match Obstacle(p, dev || accepts, stream.failsSend(|old(stream.sent)|),
                            Arrival(stream.failsRecv, old(stream.received), old(stream.inbox)), localId)
             case Some(error) => !ran && result == Failure(error)
             case None => ran
      ensures ran ==>
        && (result == Failure(SendFailed) || result == Outcome(events, taken, p.allPartyId))
        && LoopTook(network.fails, events, taken, p.allPartyId, localId, old(network.sent), network.sent,
                    result == Failure(SendFailed))
    {
      ghost var st := manager.localStorage.Map();
      ran, taken := false, 0;
      var refused := SetPending(p, created);
      if refused.Some? {
        return Failure(Refused(refused.value)), false, 0;
      }
      var error := BecomeReady(stream, p, accepts);
      if error.Some? {
        return Failure(error.value), false, 0;
      }
      ran := true;
      result, taken := EventLoop(network, p, events, created, updated);
      SecondEntryStays(st, EntryOf(p), WaitingEntry(p, created),
                       EntryAfter(p, LastTaken(events, taken), created, updated));
    }

    /** The first step: the entry is set pending, unless a pending or ready one is in its way. */
    method SetPending(p: KeyGenPrepare, created: int) returns (refused: Option<M.StorageError>)
      requires manager.localStorage.Valid() && ColonFree(p.sessionId)
      modifies manager.localStorage
      ensures manager.localStorage.Valid()
      ensures refused.Some? <==> LiveInScan(old(manager.localStorage.Map()), p.keyId)
      ensures refused == M.Refusal(WithPrefix(old(manager.localStorage.db), ScanPrefix(p.keyId)))
      ensures manager.localStorage.Map() ==
        if refused.Some? then old(manager.localStorage.Map())
        else old(manager.localStorage.Map())[EntryOf(p) := WaitingEntry(p, created)]
      ensures Stores(p, old(manager.localStorage.Map()), Begin(EntryOf(p), p.threshold, p.allPartyId, created),
                     refused.None?, manager.localStorage.Map())
    {
      ghost var st, op := manager.localStorage.Map(), Begin(EntryOf(p), p.threshold, p.allPartyId, created);
      refused := manager.CheckAndSetKeyGenStorage(p.keyId, p.sessionId, p.threshold, p.allPartyId, created);
      StoresLike(p, st, op, refused.None?, manager.localStorage.Map());
    }

    /** The second step: validation, Ready, Start, and finding the local party in the list. */
    method BecomeReady(stream: ControlStream, p: KeyGenPrepare, accepts: bool) returns (error: Option<HandlerError>)
      modifies stream
      ensures stream.sent == old(stream.sent) + if dev || accepts then [KeyGenReadyMsg] else []
      ensures error == Obstacle(p, dev || accepts, stream.failsSend(|old(stream.sent)|),
                                Arrival(stream.failsRecv, old(stream.received), old(stream.inbox)), localId)
    {
      if !dev && !accepts {
        return Some(Rejected);
      }
      var ok := stream.SendMsg(KeyGenReadyMsg);
      if !ok {
        return Some(SendFailed);
      }
      var msg := stream.RecvMsg();
      if msg.None? {
        return Some(RecvFailed);
      }
      if !msg.value.KeyGenStartMsg? {
        return Some(InvalidMsgType);
      }
      if localId !in Ids(p.allPartyId) {
        return Some(LocalPartyNotFound);
      }
      error := None;
    }

    /** The event loop: updates are passed on and sent out until a finish, an error or the end of the
        context, which comes at the latest when there is nothing more to take. */
    method EventLoop(network: SessionNetwork, p: KeyGenPrepare, events: seq<Event<Option<Output>>>,
                     ghost created: int, updated: int)
      returns (result: Result<KeyGenFinish, HandlerError>, taken: nat)
      requires manager.localStorage.Valid() && ColonFree(p.sessionId)
      requires EntryOf(p) in manager.localStorage.Map()
      requires manager.localStorage.Map()[EntryOf(p)] == WaitingEntry(p, created)
      modifies manager.localStorage, network
      ensures manager.localStorage.Valid()
      ensures manager.localStorage.Map() ==
        AfterLoop(old(manager.localStorage.Map()), p, LastTaken(events, taken), created, updated)
      ensures LoopTook(network.fails, events, taken, p.allPartyId, localId, old(network.sent), network.sent,
                       result == Failure(SendFailed))
      ensures result == Failure(SendFailed) || result == Outcome(events, taken, p.allPartyId)
    {
      taken := 0;
      ghost var st, before := manager.localStorage.Map(), network.sent;
      assert events[..0] == [];
      while taken < |events|
        invariant manager.localStorage.Valid() && manager.localStorage.Map() == st
        invariant LoopRuns(network.fails, events, taken, p.allPartyId, localId, before, network.sent)
      {
        ghost var mid := network.sent;
        assert LastTaken(events, taken + 1) == events[taken];
        var done := TakeEvent(network, p, events[taken], created, updated);
        if done.Some? {
          LoopEnds(network.fails, events, taken, p.allPartyId, localId, before, mid, network.sent,
                   done.value == Failure(SendFailed));
          return done.value, taken + 1;
        }
        LoopGoesOn(network.fails, events, taken, p.allPartyId, localId, before, mid, network.sent);
        taken := taken + 1;
      }
      assert taken == |events|;
      LoopIsThrough(network.fails, events, p.allPartyId, localId, before, network.sent);
      NothingLeft(st, p, events, created, updated);
      result := Failure(ContextOver);
    }

    /** One turn of the loop: what ends it, if anything does. */
    method TakeEvent(network: SessionNetwork, p: KeyGenPrepare, event: Event<Option<Output>>,
                     ghost created: int, updated: int)
      returns (done: Option<Result<KeyGenFinish, HandlerError>>)
      requires manager.localStorage.Valid() && ColonFree(p.sessionId)
      requires EntryOf(p) in manager.localStorage.Map()
      requires manager.localStorage.Map()[EntryOf(p)] == WaitingEntry(p, created)
      modifies manager.localStorage, network
      ensures manager.localStorage.Valid()
      ensures manager.localStorage.Map() == AfterLoop(old(manager.localStorage.Map()), p, event, created, updated)
      ensures EventTook(network.fails, event, p.allPartyId, localId, old(network.sent), network.sent,
                        done == Some(Failure(SendFailed)))
      ensures !Passes(event, p.allPartyId) ==> done == Some(Verdict(event, p.allPartyId))
      ensures Passes(event, p.allPartyId) ==>
        && (done == None || done == Some(Failure(SendFailed)))
        && manager.localStorage.Map() == old(manager.localStorage.Map())
    {
      SameEntry(manager.localStorage.Map(), EntryOf(p), WaitingEntry(p, created));
      match event {
        case ContextDone => done := Some(Failure(ContextOver));
        case LocalError => done := Some(Failure(LocalFailed));
        case Incoming(ProcessUpdate(from, _, _), parses) =>
          done := if from !in Ids(p.allPartyId) then Some(Failure(FromPartyNotFound))
                  else if !parses then Some(Failure(NotParsed)) else None;
        case Incoming(ProcessError(reason), _) =>
          FailEntry(p, updated);
          done := Some(Success(KeyGenFinish(false, reason, [])));
        case Outgoing(_, None) => done := Some(Failure(NotSerialized));
        case Outgoing(to, Some(wire)) =>
          var addressees: seq<PartyId>;
          if to.None? {
            addressees := CollectOthers(p.allPartyId, localId);
          } else {
            addressees := to.value;
          }
          var ok := network.SendAll(addressees, ProcessUpdate(localId, wire, to.None?));
          done := if ok then None else Some(Failure(SendFailed));
        case Produced(None) => done := Some(Failure(NotConverted));
        case Produced(Some(out)) =>
          var error := CommitEntry(p, out, updated);
          done := Some(if error.Some? then Failure(NotStored) else Success(KeyGenFinish(true, [], out.pubKey)));
      }
    }

    /** Makes a pending entry ready with what the local run put out. */
    method CommitEntry(p: KeyGenPrepare, out: Output, updated: int) returns (error: Option<M.StorageError>)
      requires manager.localStorage.Valid() && ColonFree(p.sessionId)
      modifies manager.localStorage
      ensures manager.localStorage.Valid()
      ensures error.None? <==> IsPending(old(manager.localStorage.Map()), EntryOf(p))
      ensures var st := old(manager.localStorage.Map());
        manager.localStorage.Map() ==
          if error.Some? then st
          else st[EntryOf(p) := st[EntryOf(p)].(pubkey := out.pubKey, status := StatusReady,
                                                saveDataJson := out.saveDataJson, updatedTime := updated)]
      ensures Stores(p, old(manager.localStorage.Map()), Commit(EntryOf(p), out.pubKey, out.saveDataJson, updated),
                     error.None?, manager.localStorage.Map())
    {
      ghost var st, op := manager.localStorage.Map(), Commit(EntryOf(p), out.pubKey, out.saveDataJson, updated);
      error := manager.CompareAndSetKeyStatusStorage(
        p.keyId, p.sessionId, out.pubKey, StatusPending, StatusReady, out.saveDataJson, updated);
      StoresLike(p, st, op, error.None?, manager.localStorage.Map());
    }

    /** Tells every other member of the failure, whether or not it gets through. */
    method Alarm(network: SessionNetwork, parties: seq<PartyID>, reason: GoString)
      modifies network
      ensures network.sent == old(network.sent) + Letters(Others(parties, localId), ProcessError(reason))
    {
      var i := 0;
      assert parties[..0] == [];
      while i < |parties|
        invariant 0 <= i <= |parties|
        invariant network.sent == old(network.sent) + Letters(Others(parties[..i], localId), ProcessError(reason))
      {
        OthersAppend(parties[..i], parties[i], localId);
        assert parties[..i + 1] == parties[..i] + [parties[i]];
        if parties[i].id != localId {
          var _ := network.Send(parties[i].id, ProcessError(reason));
        }
        i := i + 1;
      }
      assert parties[..i] == parties;
    }

    /**
     * handleKeyGen. The last thing sent is a Finish that says how the run ended. Unless it was refused,
     * the session's entry is as the Prepare says: ready with both parts of what the local run put out,
     * and then the Finish is a success with that public key, or else failed. A refusal changes only an
     * entry of the same name that is pending. No other entry changes. When handleKeyGen0 fails, every
     * other member is told once.
     */
    method HandleKeyGen(stream: ControlStream, network: SessionNetwork, accepts: bool,
                        events: seq<Event<Option<Output>>>, created: int, updated: int, text: HandlerError -> GoString)
      returns (prepare: Option<KeyGenPrepare>, finish: KeyGenFinish, failed: Option<HandlerError>,
               ran: bool, taken: nat)
      requires manager.localStorage.Valid()
      requires forall m :: m in stream.inbox && m.KeyGenPrepareMsg? ==> ColonFree(m.keyGenPrepare.sessionId)
      modifies manager.localStorage, stream, network
      ensures manager.localStorage.Valid()
      ensures StoreInv(old(manager.localStorage.Map())) ==> StoreInv(manager.localStorage.Map())
      ensures var first := Arrival(stream.failsRecv, old(stream.received), old(stream.inbox));
        if first.Some? && first.value.KeyGenPrepareMsg? then prepare == Some(first.value.keyGenPrepare)
        else
          && prepare == None && network.sent == old(network.sent)
          && manager.localStorage.Map() == old(manager.localStorage.Map())
          && finish == KeyGenFinish(false, text(if first.None? then RecvFailed else InvalidMsgType), [])
          && stream.sent == old(stream.sent) + [KeyGenFinishMsg(finish)]
      ensures prepare.Some? ==>
        && stream.sent == old(stream.sent)
             + (if !LiveInScan(old(manager.localStorage.Map()), prepare.value.keyId) && (dev || accepts)
                then [KeyGenReadyMsg] else [])
             + [KeyGenFinishMsg(finish)]
        && manager.localStorage.Map() ==
             Settled(old(manager.localStorage.Map()), prepare.value, ran, LastTaken(events, taken), created, updated)
      ensures prepare.Some? && LiveInScan(old(manager.localStorage.Map()), prepare.value.keyId) ==>
        !ran && failed.Some? && failed == RefusalError(old(manager.localStorage.db), prepare.value.keyId)
      ensures prepare.Some? && !LiveInScan(old(manager.localStorage.Map()), prepare.value.keyId) ==>
        match Obstacle(prepare.value, dev || accepts, stream.failsSend(|old(stream.sent)|),
                       Arrival(stream.failsRecv, old(stream.received) + 1, old(stream.inbox)[1..]), localId)
        case Some(error) => !ran && failed == Some(error)
        case None => ran
      ensures prepare.Some? ==>
        Told(prepare.value, localId, old(network.sent), network.sent, network.fails, events, ran, taken, failed, text)
      ensures failed.Some? ==> finish == KeyGenFinish(false, text(failed.value), [])
      ensures prepare.Some? && ran ==>
        Reports(LastTaken(events, taken), prepare.value.allPartyId, failed == Some(SendFailed), text, finish)
    {
      prepare, failed, ran, taken := None, None, false, 0;
      var msg := stream.RecvMsg();
      if msg.None? || !msg.value.KeyGenPrepareMsg? {
        finish := KeyGenFinish(false, text(if msg.None? then RecvFailed else InvalidMsgType), []);
      } else {
        prepare := Some(msg.value.keyGenPrepare);
        finish, failed, ran, taken :=
          Participate(stream, network, prepare.value, accepts, events, created, updated, text);
        if StoreInv(old(manager.localStorage.Map())) {
          SettledKeepsInv(old(manager.localStorage.Map()), prepare.value, ran, LastTaken(events, taken),
                          created, updated);
        }
      }
      var _ := stream.SendMsg(KeyGenFinishMsg(finish));
    }

    /** handleKeyGen0 and, if that fails, failing the entry and alarming the others. */
    method Participate(stream: ControlStream, network: SessionNetwork, p: KeyGenPrepare, accepts: bool,
                       events: seq<Event<Option<Output>>>, created: int, updated: int, text: HandlerError -> GoString)
      returns (finish: KeyGenFinish, failed: Option<HandlerError>, ran: bool, taken: nat)
      requires manager.localStorage.Valid() && ColonFree(p.sessionId)
      modifies manager.localStorage, stream, network
      ensures manager.localStorage.Valid()
      ensures stream.sent == old(stream.sent)
        + if !LiveInScan(old(manager.localStorage.Map()), p.keyId) && (dev || accepts) then [KeyGenReadyMsg] else []
      ensures manager.localStorage.Map() ==
        Settled(old(manager.localStorage.Map()), p, ran, LastTaken(events, taken), created, updated)
      ensures LiveInScan(old(manager.localStorage.Map()), p.keyId) ==>
        !ran && failed.Some? && failed == RefusalError(old(manager.localStorage.db), p.keyId)
      ensures !LiveInScan(old(manager.localStorage.Map()), p.keyId) ==>
        match Obstacle(p, dev || accepts, stream.failsSend(|old(stream.sent)|),
                       Arrival(stream.failsRecv, old(stream.received), old(stream.inbox)), localId)
        case Some(error) => !ran && failed == Some(error)
        case None => ran
      ensures Told(p, localId, old(network.sent), network.sent, network.fails, events, ran, taken, failed, text)
      ensures failed.Some? ==> finish == KeyGenFinish(false, text(failed.value), [])
      ensures ran ==> Reports(LastTaken(events, taken), p.allPartyId, failed == Some(SendFailed), text, finish)
    {
      failed := None;
      var result;
      result, ran, taken := HandleKeyGen0(stream, network, p, accepts, events, created, updated);
      if result.Success? {
        finish := result.value;
        AlreadySettled(old(manager.localStorage.Map()), p, events, taken, created, updated);
        TellsNoMore(p, localId, old(network.sent), network.sent, [], network.fails, events, ran, taken, failed, text);
      } else {
        failed := Some(result.error);
        finish := KeyGenFinish(false, text(result.error), []);
        ghost var sent := network.sent;
        FailEntry(p, updated);
        SettlesTheRest(old(manager.localStorage.Map()), p, ran, LastTaken(events, taken), created, updated);
        Alarm(network, p.allPartyId, finish.failureReason);
        TellsNoMore(p, localId, old(network.sent), sent, AlarmLetters(p, localId, failed, text), network.fails, events,
                    ran, taken, failed, text);
      }
      if ran {
        LoopReports(events, taken, p.allPartyId, result, text, finish);
      }
    }

    /** Fails the session's entry if it is pending. */
    method FailEntry(p: KeyGenPrepare, updated: int)
      requires manager.localStorage.Valid() && ColonFree(p.sessionId)
      modifies manager.localStorage
      ensures manager.localStorage.Valid()
      ensures manager.localStorage.Map() == Unpended(old(manager.localStorage.Map()), EntryOf(p), updated)
      ensures Stores(p, old(manager.localStorage.Map()), Abort(EntryOf(p), updated),
                     IsPending(old(manager.localStorage.Map()), EntryOf(p)), manager.localStorage.Map())
    {
      ghost var st := manager.localStorage.Map();
      var error := manager.CompareAndSetKeyStatusStorage(
        p.keyId, p.sessionId, [], StatusPending, StatusError, [], updated);
      StoresLike(p, st, Abort(EntryOf(p), updated), error.None?, manager.localStorage.Map());
    }
  }

  lemma {:induction false} OthersAppend(parties: seq<PartyID>, p: PartyID, local: PartyId)
    ensures Others(parties + [p], local) == Others(parties, local) + if p.id != local then [p.id] else []
  {
    if parties == [] {
      assert [] + [p] == [p];
    } else {
      OthersAppend(parties[1..], p, local);
      assert (parties + [p])[1..] == parties[1..] + [p];
    }
  }
}
