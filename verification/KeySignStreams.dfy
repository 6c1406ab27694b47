/** The streams of the key signing coordinator: who is told what, closing, and whose signature is
    returned; and its loops run as loops. */
module KeySignStreams {
  import opened Wrappers
  import opened TssTypes
  import opened SeqLemmas
  import opened KeySignModel
  import opened KeySignInvariant
  import opened KeySignTheorems

  predicate IsStart(a: Act) {
    a.Sent? && a.m.KeySignStartMsg?
  }

  predicate IsCancel(a: Act) {
    a == Sent(KeySignCancelMsg)
  }

  /** A stream is closed once at most, and nothing is done on it afterwards. */
  ghost predicate ClosedLast(acts: seq<Act>) {
    forall k :: 0 <= k < |acts| && acts[k] == Closed ==> k == |acts| - 1
  }

  lemma UnreadyActs(p: TssP2PMsg, acts: seq<Act>)
    requires Unready(p, acts) && p.KeySignPrepareMsg?
    ensures forall a :: a in acts ==> a != Closed && !IsStart(a) && !IsCancel(a)
  {
  }

  lemma ServedActs(p: TssP2PMsg, start: TssP2PMsg, acts: seq<Act>)
    requires Served(p, start, acts) && p.KeySignPrepareMsg? && start.KeySignStartMsg?
    ensures forall a :: a in acts ==> a != Closed && !IsCancel(a) && (IsStart(a) ==> a == Sent(start))
  {
    if |acts| == 4 {
      assert acts == acts[..3] + [acts[3]];
    }
  }

  /** The record of a stream that was closed at the end, if at all. */
  lemma ClosedAtEnd(acts: seq<Act>)
    requires Closed !in acts || (acts != [] && Closed !in acts[..|acts| - 1])
    ensures ClosedLast(acts)
  {
    assert forall k :: 0 <= k < |acts| - 1 ==> acts[..|acts| - 1][k] == acts[k];
  }

  /** What the record of a stream says about the place of its goroutine. */
  ghost predicate Telling(signers: seq<PartyID>, l: Leg) {
    && ClosedLast(l.acts)
    && (forall a :: a in l.acts && IsStart(a) ==> SecondPhase(l.pc) && a.m.signPartyId == signers)
    && (forall a :: a in l.acts && IsCancel(a) ==> InCancel(l.pc) && Got(KeySignReadyMsg) in l.acts)
  }

  lemma UnreadyTells(c: Config, signers: seq<PartyID>, l: Leg)
    requires LegOk(c, signers, l) && (l.pc.RejectError? || l.pc.PrepareError? || l.pc.CloseUnready? || l.pc.Gone?)
    ensures Telling(signers, l)
  {
    var p := KeySignPrepareMsg(c.prepare);
    if l.pc.Gone? && l.acts != [] {
      var front := l.acts[..|l.acts| - 1];
      UnreadyActs(p, front);
      assert l.acts == front + [Closed];
    } else if l.acts != [] {
      UnreadyActs(p, l.acts);
    }
    ClosedAtEnd(l.acts);
  }

  lemma ServedTells(c: Config, signers: seq<PartyID>, l: Leg)
    requires LegOk(c, signers, l) && (l.pc.PushError2? || l.pc.Left2?)
    ensures Telling(signers, l)
  {
    var p, start := KeySignPrepareMsg(c.prepare), KeySignStartMsg(signers);
    if Served(p, start, l.acts) {
      ServedActs(p, start, l.acts);
    } else {
      var front := l.acts[..|l.acts| - 1];
      ServedActs(p, start, front);
      assert l.acts == front + [Closed];
    }
    ClosedAtEnd(l.acts);
  }

  lemma CancelTells(c: Config, signers: seq<PartyID>, l: Leg)
    requires LegOk(c, signers, l) && InCancel(l.pc)
    ensures Telling(signers, l)
  {
    if !l.pc.TakenToCancel? {
      assert l.acts[1] == Got(KeySignReadyMsg);
    }
  }

  lemma ActsTell(c: Config, signers: seq<PartyID>, l: Leg)
    requires LegOk(c, signers, l)
    ensures Telling(signers, l)
  {
    if l.pc.RejectError? || l.pc.PrepareError? || l.pc.CloseUnready? || l.pc.Gone? {
      UnreadyTells(c, signers, l);
    } else if l.pc.PushError2? || l.pc.Left2? {
      ServedTells(c, signers, l);
    } else if InCancel(l.pc) {
      CancelTells(c, signers, l);
    }
  }

  /** What every reachable state says of one leg. */
  lemma LegAt(c: Config, s: State, i: nat)
    requires Reachable(c, s) && i < |s.legs|
    ensures LegOk(c, s.signers, s.legs[i])
    ensures i in s.ready.Values <==> InMap(s.legs[i].pc)
    ensures InCancel(s.legs[i].pc) ==> s.selected
  {
    ReachableInv(c, s);
    InMapIsInValues(c, s, i);
    if InCancel(s.legs[i].pc) {
      CancelledAfterSelection(c, s, i);
    }
  }

  /** Stream partition: Start goes only to the streams in the ready map, with the signer list, Cancel
      only to ready streams outside it, none gets both, and each is closed once at most and never
      used afterwards. */
  lemma StreamPartition(c: Config, s: State, i: nat)
    requires Reachable(c, s) && i < |s.legs|
    ensures ClosedLast(s.legs[i].acts)
    ensures forall a :: a in s.legs[i].acts && IsStart(a) ==> i in s.ready.Values && a.m.signPartyId == s.signers
    ensures forall a :: a in s.legs[i].acts && IsCancel(a) ==>
      s.selected && i !in s.ready.Values && Got(KeySignReadyMsg) in s.legs[i].acts
    ensures forall a, b :: a in s.legs[i].acts && b in s.legs[i].acts ==> !(IsStart(a) && IsCancel(b))
  {
    LegAt(c, s, i);
    ActsTell(c, s.signers, s.legs[i]);
  }

  lemma InMapIsInValues(c: Config, s: State, i: nat)
    requires MapInv(c, s) && i < |s.legs|
    ensures i in s.ready.Values <==> InMap(s.legs[i].pc)
  {
  }

  lemma CancelledAfterSelection(c: Config, s: State, i: nat)
    requires PhaseInv(s) && CancelInv(c, s) && i < |s.legs| && InCancel(s.legs[i].pc)
    ensures s.selected
  {
    assert i in CancelSet(s.legs);
  }

  // ---- nobody ready is forgotten ----

  /** When the canceller has ended, or was not needed, and the context is not done, every stream that
      became ready is in the map, gave way there to another of its party, or was cancelled and
      closed; also if the channel was closed first. */
  lemma EveryReadyStreamServed(c: Config, s: State, i: nat)
    requires Reachable(c, s) && s.selected && !s.ctxDone
    requires s.canceller.NotStarted? || s.canceller.Ended?
    requires i < |s.legs| && Ready1 in s.legs[i].pushes
    ensures
      || i in s.ready.Values || s.legs[i].pc.Overwritten?
      || (Sent(KeySignCancelMsg) in s.legs[i].acts && Closed in s.legs[i].acts)
    ensures Distinct(Ids(c.parties)) ==> !s.legs[i].pc.Overwritten?
  {
    ReachableInv(c, s);
    NothingQueued(c, s);
    assert i !in s.readyChan;
    InMapIsInValues(c, s, i);
    CancellerAtRest(c, s, i);
    ReadyPlaces(c, s.signers, s.legs[i]);
    if s.legs[i].pc.Overwritten? {
      OverwrittenMeansTwice(c, s, i);
    }
  }

  lemma NothingQueued(c: Config, s: State)
    requires MapInv(c, s) && QueueInv(s) && CancelInv(c, s) && s.selected && !s.ctxDone
    requires s.canceller.NotStarted? || s.canceller.Ended?
    ensures s.readyChan == []
  {
    if s.canceller.NotStarted? {
      CountedAll(c, s);
    }
  }

  lemma ReadyPlaces(c: Config, signers: seq<PartyID>, l: Leg)
    requires LegOk(c, signers, l) && Ready1 in l.pushes
    requires !l.pc.Queued? && !l.pc.TakenToCancel? && !l.pc.CancelSent?
    ensures InMap(l.pc) || l.pc.Overwritten? || (Sent(KeySignCancelMsg) in l.acts && Closed in l.acts)
  {
    if l.pc.Cancelled? {
      assert l.acts[2] == Sent(KeySignCancelMsg) && l.acts[3] == Closed;
    }
  }

  lemma CancellerAtRest(c: Config, s: State, i: nat)
    requires CancelInv(c, s) && i < |s.legs| && (s.canceller.NotStarted? || s.canceller.Ended?)
    ensures !s.legs[i].pc.TakenToCancel? && !s.legs[i].pc.CancelSent?
  {
  }

  lemma OverwrittenMeansTwice(c: Config, s: State, i: nat)
    requires MapInv(c, s) && i < |s.legs| && s.legs[i].pc.Overwritten?
    ensures !Distinct(Ids(c.parties))
  {
    var j := s.ready[c.parties[i].id];
    assert j != i && Ids(c.parties)[i] == Ids(c.parties)[j];
  }

  /** What the canceller holds or will take is a stream of the session. */
  lemma CancellerHolds(c: Config, s: State)
    requires Reachable(c, s)
    ensures s.canceller.HasStream? || s.canceller.HasSent? ==> s.canceller.i < |s.legs|
    ensures s.readyChan != [] ==> s.readyChan[0] < |s.legs|
  {
    ReachableInv(c, s);
    assert s.readyChan != [] ==> s.readyChan[0] in s.readyChan;
  }

  /** One turn of the canceller after the ready channel was closed. */
  method CancelOnce(c: Config, s0: State) returns (s: State)
    requires Reachable(c, s0) && !s0.ctxDone && s0.chansClosed
    requires s0.canceller.Draining? || s0.canceller.HasStream? || s0.canceller.HasSent?
    ensures Reachable(c, s) && !s.ctxDone && s.chansClosed && s.selected == s0.selected && s.ready == s0.ready
    ensures match s0.canceller
            case Draining(_) =>
              if s0.readyChan == [] then s.canceller.Ended? && s.readyChan == []
              else s.canceller.HasStream? && |s.readyChan| < |s0.readyChan|
            case HasStream(_, _) => s.canceller.HasSent? && s.readyChan == s0.readyChan
            case _ => (s.canceller.Draining? || s.canceller.Ended?) && s.readyChan == s0.readyChan
  {
    CancellerHolds(c, s0);
    match s0.canceller {
      case Draining(cnt) =>
        if s0.readyChan == [] {
          s := s0.(canceller := Ended);
        } else {
          var i := s0.readyChan[0];
          s := s0.(canceller := HasStream(cnt + 1, i), readyChan := s0.readyChan[1..],
                   legs := s0.legs[i := s0.legs[i].(pc := TakenToCancel)]);
        }
      case HasStream(cnt, i) =>
        s := s0.(canceller := HasSent(cnt, i),
                 legs := s0.legs[i := Did(s0.legs[i], Sent(KeySignCancelMsg)).(pc := CancelSent)]);
      case HasSent(cnt, i) =>
        s := s0.(canceller := if cnt == |c.parties| then Ended else Draining(cnt),
                 legs := s0.legs[i := Did(s0.legs[i], Closed).(pc := Cancelled)]);
    }
    StepReaches(c, s0, s, CancellerMoves);
  }

  /** How many turns the canceller needs before it takes the next stream. */
  function TurnsLeft(canceller: Canceller): nat {
    match canceller
    case HasStream(_, _) => 3
    case HasSent(_, _) => 2
    case Draining(_) => 1
    case _ => 0
  }

  /** The canceller, run to its end once the ready channel is closed: it ends with nothing queued. */
  method DrainCancelled(c: Config, s0: State) returns (s: State)
    requires Reachable(c, s0) && s0.selected && !s0.ctxDone && s0.chansClosed
    ensures Reachable(c, s) && !s.ctxDone && s.ready == s0.ready && s.selected
    ensures s.canceller.NotStarted? || s.canceller.Ended?
    ensures s.readyChan == []
  {
    s := s0;
    while !(s.canceller.NotStarted? || s.canceller.Ended?)
      invariant Reachable(c, s) && s.selected && !s.ctxDone && s.chansClosed && s.ready == s0.ready
      decreases |s.readyChan|, TurnsLeft(s.canceller)
    {
      s := CancelOnce(c, s);
    }
    ReachableInv(c, s);
    NothingQueued(c, s);
  }

  // ---- the loops of KeySign ----

  /** One turn of the selection loop that takes a ready stream. */
  lemma ReadyTurn(c: Config, s: State)
    requires Reachable(c, s) && s.main.Selecting? && s.readyChan != []
    ensures ReadyToTake(c, s)
    ensures var s' := AfterReady(c, s);
      Reachable(c, s') && |s'.readyChan| < |s.readyChan| && (s'.main.Selecting? || s'.main.WaitFinishers?)
  {
    ReachableInv(c, s);
    EnteredInv(c, s);
    StepReaches(c, s, AfterReady(c, s), MainTakesReady);
  }

  /** What makes the selection loop fail: the end of the context, or the first error queued. */
  predicate SelectionFailed(s0: State, result: Result<Signature, GoString>) {
    result.Failure? && (s0.ctxDone || (s0.errChan != [] && result.error == s0.errChan[0]))
  }

  /** The selection loop. It ends, and leaves the loop unless there is nothing left to take. */
  method WaitForReady(c: Config, s0: State) returns (s: State)
    requires Reachable(c, s0) && s0.main.Selecting?
    ensures Reachable(c, s)
    ensures s.main.Selecting? ==> !SelectEnabled(s) && |DistinctParties(c)| < Quorum(c)
    ensures s.main.WaitFinishers? ==> |s.ready| == Quorum(c) && s.signers == Signers(c.parties, s.ready.Keys)
    ensures !s.main.Selecting? && !s.main.WaitFinishers? ==> s.main.ClosingChans? && SelectionFailed(s0, s.result)
  {
    s := s0;
    while s.main.Selecting? && (s.ctxDone || s.errChan != [] || s.readyChan != [])
      invariant Reachable(c, s)
      invariant s.main.Selecting? || s.main.WaitFinishers?
             || (s.main.ClosingChans? && SelectionFailed(s0, s.result))
      invariant s.main.Selecting? ==> s.ctxDone == s0.ctxDone && s.errChan == s0.errChan
      decreases s.main.Selecting?, |s.readyChan|
    {
      ghost var before := s;
      if
      case s.ctxDone =>
        s := s.(main := ClosingChans, result := Failure([]));
        StepReaches(c, before, s, MainGivesUp);
      case s.errChan != [] =>
        s := s.(main := ClosingChans, result := Failure(s.errChan[0]), errChan := s.errChan[1..]);
        StepReaches(c, before, s, MainTakesError);
      case s.readyChan != [] =>
        ReadyTurn(c, s);
        s := AfterReady(c, s);
    }
    if s.main.Selecting? && |DistinctParties(c)| >= Quorum(c) {
      SelectionNotStuck(c, s);
    }
    if s.main.WaitFinishers? {
      FinishersSelected(c, s);
      QuorumSelected(c, s);
    }
  }

  lemma FinishersSelected(c: Config, s: State)
    requires Reachable(c, s) && s.main.WaitFinishers?
    ensures s.selected
  {
    ReachableInv(c, s);
  }

  /** The signature of the first successful finish message. */
  function FirstSignature(finishes: seq<KeySignFinish>): Option<Signature> {
    if finishes == [] then None
    else if finishes[0].isSuccess then Some(finishes[0].signature)
    else FirstSignature(finishes[1..])
  }

  /** What taking a message does to the finish loop. */
  ghost predicate FinishTurned(s: State, s': State)
    requires s.finishChan != []
  {
    if s'.main.Finishing? then FirstSignature(s'.finishChan) == FirstSignature(s.finishChan)
    else
      && s'.main.ClosingStreams?
      && FirstSignature(s.finishChan) == (if s'.result.Success? then Some(s'.result.value) else None)
      && (s'.result.Failure? ==> |s.finishChan| == 1 && s'.result.error == s.finishChan[0].failureReason)
  }

  /** One turn of the finish loop that takes a message. */
  lemma FinishTurn(c: Config, s: State)
    requires Reachable(c, s) && s.main.Finishing? && s.finishChan != []
    ensures Reachable(c, AfterFinish(s)) && FinishTurned(s, AfterFinish(s))
  {
    StepReaches(c, s, AfterFinish(s), MainTakesFinish);
    LastFailure(c, s);
  }

  /** What makes the finish loop fail while the context lives: the first error queued, or nothing but
      failures, of which the last gives the reason. */
  predicate FinishFails(s: State, error: GoString) {
    || (s.errChan != [] && error == s.errChan[0])
    || (s.finishChan != [] && FirstSignature(s.finishChan) == None
        && error == s.finishChan[|s.finishChan| - 1].failureReason)
  }

  /** The finish loop. It always ends; a returned signature is that of the first success received,
      and with the context alive it fails with an error that was queued, or if every participant
      failed, and then with the reason of the last. */
  method WaitForFinish(c: Config, s0: State) returns (s: State)
    requires Reachable(c, s0) && s0.main.Finishing?
    ensures Reachable(c, s) && s.main.ClosingStreams?
    ensures s.result.Success? ==> FirstSignature(s0.finishChan) == Some(s.result.value)
    ensures !s0.ctxDone && s.result.Failure? ==> FinishFails(s0, s.result.error)
  {
    s := s0;
    while s.main.Finishing?
      invariant Reachable(c, s) && FinishProgress(s0, s)
      decreases s.main.Finishing?, |s.finishChan|
    {
      FinishLoopNeverStuck(c, s);
      if
      case s.ctxDone =>
        FinishLeft(c, s0, s, Failure([]), s.errChan, MainGivesUp);
        s := s.(main := ClosingStreams(Values(s.ready)), result := Failure([]));
      case s.errChan != [] =>
        FinishLeft(c, s0, s, Failure(s.errChan[0]), s.errChan[1..], MainTakesError);
        s := s.(main := ClosingStreams(Values(s.ready)), result := Failure(s.errChan[0]), errChan := s.errChan[1..]);
      case s.finishChan != [] =>
        FinishTurn(c, s);
        TurnProgress(s0, s);
        s := AfterFinish(s);
    }
  }

  /** Where the finish loop is, and what it has returned once it is left. */
  ghost predicate FinishProgress(s0: State, s: State) {
    if s.main.Finishing? then
      && s.ctxDone == s0.ctxDone && s.errChan == s0.errChan
      && FirstSignature(s.finishChan) == FirstSignature(s0.finishChan)
      && |s.finishChan| <= |s0.finishChan| && s.finishChan == s0.finishChan[|s0.finishChan| - |s.finishChan|..]
    else
      && s.main.ClosingStreams?
      && (s.result.Success? ==> FirstSignature(s0.finishChan) == Some(s.result.value))
      && (s.result.Failure? ==> s0.ctxDone || FinishFails(s0, s.result.error))
  }

  lemma TurnProgress(s0: State, s: State)
    requires s.main.Finishing? && s.finishChan != [] && FinishProgress(s0, s) && FinishTurned(s, AfterFinish(s))
    ensures FinishProgress(s0, AfterFinish(s))
  {
  }

  lemma FinishLeft(c: Config, s0: State, s: State, result: Result<Signature, GoString>, errChan: seq<GoString>,
                   step: Step)
    requires Reachable(c, s) && s.main.Finishing? && result.Failure? && FinishProgress(s0, s)
    requires (step.MainGivesUp? && s.ctxDone && errChan == s.errChan)
          || (step.MainTakesError? && s.errChan != [] && result == Failure(s.errChan[0]) && errChan == s.errChan[1..])
    ensures Reachable(c, s.(main := ClosingStreams(Values(s.ready)), result := result, errChan := errChan))
    ensures FinishProgress(s0, s.(main := ClosingStreams(Values(s.ready)), result := result, errChan := errChan))
  {
    StepReaches(c, s, s.(main := ClosingStreams(Values(s.ready)), result := result, errChan := errChan), step);
  }

  /** The failure that ends the loop is the last message there is. */
  lemma LastFailure(c: Config, s: State)
    requires Reachable(c, s) && s.main.Finishing? && s.finishChan != []
    ensures s.main.finishCnt + |s.finishChan| <= |s.ready|
  {
    ReachableInv(c, s);
    FinishersAreInMap(c, s);
  }

  lemma FinishersAreInMap(c: Config, s: State)
    requires LegsInv(c, s) && MapInv(c, s)
    ensures |FinSet(s.legs)| <= |s.ready|
  {
    forall k | k in FinSet(s.legs) ensures k in InMapSet(s.legs) {
      FinisherInMap(c, s.signers, s.legs[k]);
    }
    MapCard(c, s);
    SubsetCard(FinSet(s.legs), InMapSet(s.legs));
  }

  // ---- provenance ----

  /** A signature that KeySign returns came in, verbatim, on the stream of a selected party. */
  lemma SignatureWasReceived(c: Config, s: State)
    requires Reachable(c, s) && s.result.Success?
    ensures exists i, f: KeySignFinish ::
      0 <= i < |s.legs| && i in s.ready.Values && f.isSuccess && f.signature == s.result.value
      && Got(KeySignFinishMsg(f)) in s.legs[i].acts
  {
    ReachableInv(c, s);
    var f: KeySignFinish :| f.isSuccess && f.signature == s.result.value && Received(s.legs, f);
    var i :| 0 <= i < |s.legs| && SecondPhase(s.legs[i].pc) && Got(KeySignFinishMsg(f)) in s.legs[i].acts;
    InMapIsInValues(c, s, i);
  }
}
