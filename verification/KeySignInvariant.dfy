/** The inductive invariant of the key signing coordinator, and that every step keeps it. */
module KeySignInvariant {
  import opened Wrappers
  import opened TssTypes
  import opened SeqLemmas
  import opened KeySignModel

  // ---- one leg ----

  predicate InMap(pc: Goroutine) {
    pc.Chosen? || SecondPhase(pc)
  }

  predicate InCancel(pc: Goroutine) {
    pc.TakenToCancel? || pc.CancelSent? || pc.Cancelled?
  }

  /** What was done on a stream before anything but Ready came back. */
  predicate Unready(p: TssP2PMsg, acts: seq<Act>) {
    || acts == [Sent(p)]
    || (|acts| == 2 && acts[0] == Sent(p) && acts[1].Got?)
  }

  /** What the second phase does on a selected stream before it is closed. */
  predicate Served(p: TssP2PMsg, start: TssP2PMsg, acts: seq<Act>) {
    || acts == [Sent(p), Got(KeySignReadyMsg)]
    || acts == [Sent(p), Got(KeySignReadyMsg), Sent(start)]
    || (|acts| == 4 && acts[..3] == [Sent(p), Got(KeySignReadyMsg), Sent(start)] && acts[3].Got?)
  }

  /** A goroutine's place tells what was done on its stream and what it put on the channels. */
  predicate LegOk(c: Config, signers: seq<PartyID>, l: Leg) {
    var p, start := KeySignPrepareMsg(c.prepare), KeySignStartMsg(signers);
    var ready := [Sent(p), Got(KeySignReadyMsg)];
    match l.pc
    case Begin => l.acts == [] && l.pushes == []
    case DialError(_) => l.acts == [] && l.pushes == []
    case SendPrepare => l.acts == [] && l.pushes == []
    case AwaitReady => l.acts == [Sent(p)] && l.pushes == []
    case PushReady => l.acts == ready && l.pushes == []
    case RejectError(_) => Unready(p, l.acts) && l.pushes == []
    case PrepareError(_) => Unready(p, l.acts) && l.pushes == []
    case CloseUnready => Unready(p, l.acts) && (l.pushes == [] || l.pushes == [Error1])
    case Gone =>
      && (l.pushes == [] || l.pushes == [Error1])
      && (l.acts == [] || (l.acts[|l.acts| - 1] == Closed && Unready(p, l.acts[..|l.acts| - 1])))
    case Abandoned => l.acts == ready && l.pushes == []
    case Queued => l.acts == ready && l.pushes == [Ready1]
    case TakenToCancel => l.acts == ready && l.pushes == [Ready1]
    case CancelSent => l.acts == ready + [Sent(KeySignCancelMsg)] && l.pushes == [Ready1]
    case Cancelled => l.acts == ready + [Sent(KeySignCancelMsg), Closed] && l.pushes == [Ready1]
    case Chosen => l.acts == ready && l.pushes == [Ready1]
    case Overwritten => l.acts == ready && l.pushes == [Ready1]
    case Begin2 => l.acts == ready && l.pushes == [Ready1]
    case AwaitFinish => l.acts == ready + [Sent(start)] && l.pushes == [Ready1]
    case PushFinish(f) => l.acts == ready + [Sent(start), Got(KeySignFinishMsg(f))] && l.pushes == [Ready1]
    case PushError2(_) => Served(p, start, l.acts) && l.pushes == [Ready1]
    case Left2 =>
      && (l.pushes == [Ready1] || l.pushes == [Ready1, Error2] || l.pushes == [Ready1, Finish2])
      && (Served(p, start, l.acts)
          || (l.acts != [] && l.acts[|l.acts| - 1] == Closed && Served(p, start, l.acts[..|l.acts| - 1])))
  }

  /** A goroutine that put nothing where it could have did so because the context was done. */
  predicate LegCtx(ctxDone: bool, l: Leg) {
    && ((l.pc.Gone? || l.pc.CloseUnready?) && l.pushes == [] ==> ctxDone)
    && (l.pc.Abandoned? ==> ctxDone)
    && (l.pc.Left2? && l.pushes == [Ready1] ==> ctxDone)
  }

  // ---- sets of legs ----

  predicate PushedError(l: Leg) {
    Error1 in l.pushes || Error2 in l.pushes
  }

  ghost function ErrSet(legs: seq<Leg>): (r: set<nat>)
    ensures forall i :: i in r <==> 0 <= i < |legs| && PushedError(legs[i])
  {
    set i | i in Below(|legs|) && PushedError(legs[i])
  }

  ghost function FinSet(legs: seq<Leg>): (r: set<nat>)
    ensures forall i :: i in r <==> 0 <= i < |legs| && Finish2 in legs[i].pushes
  {
    set i | i in Below(|legs|) && Finish2 in legs[i].pushes
  }

  ghost function CancelSet(legs: seq<Leg>): (r: set<nat>)
    ensures forall i :: i in r <==> 0 <= i < |legs| && InCancel(legs[i].pc)
  {
    set i | i in Below(|legs|) && InCancel(legs[i].pc)
  }

  ghost function InMapSet(legs: seq<Leg>): (r: set<nat>)
    ensures forall i :: i in r <==> 0 <= i < |legs| && InMap(legs[i].pc)
  {
    set i | i in Below(|legs|) && InMap(legs[i].pc)
  }

  // ---- the parts of the invariant ----

  ghost predicate LegsInv(c: Config, s: State) {
    && |s.legs| == |c.parties|
    && forall i :: 0 <= i < |s.legs| ==> LegOk(c, s.signers, s.legs[i]) && LegCtx(s.ctxDone, s.legs[i])
  }

  /** The ready map and the legs agree on which streams are in it. */
  ghost predicate MapInv(c: Config, s: State) {
    && |s.legs| == |c.parties|
    && (forall p :: p in s.ready ==>
          s.ready[p] < |s.legs| && c.parties[s.ready[p]].id == p && InMap(s.legs[s.ready[p]].pc))
    && (forall i :: 0 <= i < |s.legs| && InMap(s.legs[i].pc) ==>
          c.parties[i].id in s.ready && s.ready[c.parties[i].id] == i)
    && (forall i :: 0 <= i < |s.legs| && s.legs[i].pc.Overwritten? ==> c.parties[i].id in s.ready)
  }

  /** The ready channel holds each queued stream once. */
  ghost predicate QueueInv(s: State) {
    && Distinct(s.readyChan)
    && (forall i :: i in s.readyChan ==> i < |s.legs| && s.legs[i].pc.Queued?)
    && (forall i :: 0 <= i < |s.legs| && s.legs[i].pc.Queued? ==> i in s.readyChan)
  }

  predicate PastFinishers(m: Main) {
    m.Finishing? || m.ClosingStreams? || m.ClosingFinishChan? || m.ClosingChans? || m.Returned?
  }

  ghost predicate PhaseInv(s: State) {
    && (!s.main.WaitDials? ==> forall i :: 0 <= i < |s.legs| ==> FirstPhaseOver(s.legs[i].pc))
    && (s.main.WaitDials? ==> s.ready == map[])
    && (s.main.WaitDials? || s.main.Selecting? ==> !s.selected)
    && (s.main.WaitFinishers? || s.main.Finishing? || s.main.ClosingStreams? || s.main.ClosingFinishChan? ==>
          s.selected)
    && (!s.selected ==> s.canceller.NotStarted? && s.finishChan == [] && !s.finishClosed)
    && (!s.selected ==> forall i :: 0 <= i < |s.legs| ==> !SecondPhase(s.legs[i].pc))
    && (s.selected ==> forall i :: 0 <= i < |s.legs| ==> !s.legs[i].pc.Chosen?)
    && (PastFinishers(s.main) ==>
          forall i :: 0 <= i < |s.legs| && SecondPhase(s.legs[i].pc) ==> s.legs[i].pc.Left2?)
    && (s.finishClosed ==> s.main.ClosingChans? || s.main.Returned?)
    && (s.chansClosed ==> s.main.Returned?)
  }

  /** Main closes each selected stream once. */
  ghost predicate CloseInv(s: State) {
    && (s.main.WaitFinishers? || s.main.Finishing? ==>
          forall i :: 0 <= i < |s.legs| && s.legs[i].pc.Left2? ==> Closed !in s.legs[i].acts)
    && (s.main.ClosingStreams? ==>
          forall i :: i in s.main.open ==> i < |s.legs| && s.legs[i].pc.Left2? && Closed !in s.legs[i].acts)
  }

  ghost predicate QuorumInv(c: Config, s: State) {
    && (!s.selected ==> |s.ready| < Quorum(c))
    && (s.selected ==> |s.ready| == Quorum(c) && s.signers == Signers(c.parties, s.ready.Keys))
  }

  predicate Active(m: Main) {
    m.WaitDials? || m.Selecting? || m.WaitFinishers? || m.Finishing?
  }

  ghost predicate CountInv(s: State) {
    && |s.errChan| <= |ErrSet(s.legs)|
    && (Active(s.main) ==> |s.errChan| == |ErrSet(s.legs)|)
    && |s.finishChan| <= |FinSet(s.legs)|
    && (s.main.WaitFinishers? ==> |s.finishChan| == |FinSet(s.legs)|)
    && (s.main.Finishing? ==>
          s.main.finishCnt + |s.finishChan| == |FinSet(s.legs)| && s.main.finishCnt < |s.ready|)
  }

  ghost predicate CancelInv(c: Config, s: State) {
    && (forall i :: 0 <= i < |s.legs| && s.legs[i].pc.TakenToCancel? ==> s.canceller.HasStream? && s.canceller.i == i)
    && (forall i :: 0 <= i < |s.legs| && s.legs[i].pc.CancelSent? ==> s.canceller.HasSent? && s.canceller.i == i)
    && match s.canceller
       case NotStarted => CancelSet(s.legs) == {} && (s.selected ==> |s.ready| == |c.parties|)
       case Draining(cnt) => cnt == |s.ready| + |CancelSet(s.legs)|
       case HasStream(cnt, i) =>
         cnt == |s.ready| + |CancelSet(s.legs)| && i < |s.legs| && s.legs[i].pc.TakenToCancel?
       case HasSent(cnt, i) =>
         cnt == |s.ready| + |CancelSet(s.legs)| && i < |s.legs| && s.legs[i].pc.CancelSent?
       case Ended => s.ctxDone || s.readyChan == []
  }

  /** The finish message came in on a selected stream. */
  ghost predicate Received(legs: seq<Leg>, f: KeySignFinish) {
    exists i :: 0 <= i < |legs| && SecondPhase(legs[i].pc) && Got(KeySignFinishMsg(f)) in legs[i].acts
  }

  ghost predicate ReceivedSignature(legs: seq<Leg>, sig: Signature) {
    exists f: KeySignFinish :: f.isSuccess && f.signature == sig && Received(legs, f)
  }

  ghost predicate ResultInv(s: State) {
    && (forall k :: 0 <= k < |s.finishChan| ==> Received(s.legs, s.finishChan[k]))
    && (s.result.Success? ==> PastFinishers(s.main) && s.selected && ReceivedSignature(s.legs, s.result.value))
  }

  ghost predicate Inv(c: Config, s: State) {
    && LegsInv(c, s) && MapInv(c, s) && QueueInv(s) && PhaseInv(s) && CloseInv(s)
    && QuorumInv(c, s) && CountInv(s) && CancelInv(c, s) && ResultInv(s)
  }

  lemma InitSets(legs: seq<Leg>)
    requires forall i :: 0 <= i < |legs| ==> legs[i] == Leg(Begin, [], [])
    ensures ErrSet(legs) == {} && FinSet(legs) == {} && CancelSet(legs) == {}
  {
  }

  lemma InitInv(c: Config)
    ensures Inv(c, NewState(c))
  {
    var s := NewState(c);
    assert forall i :: 0 <= i < |s.legs| ==> s.legs[i] == Leg(Begin, [], []);
    InitBooks(c, s);
    assert LegsInv(c, s);
  }

  lemma InitBooks(c: Config, s: State)
    requires s == NewState(c)
    requires forall i :: 0 <= i < |s.legs| ==> s.legs[i] == Leg(Begin, [], [])
    ensures MapInv(c, s) && QueueInv(s) && PhaseInv(s) && CloseInv(s) && CountInv(s) && CancelInv(c, s)
  {
    InitSets(s.legs);
  }

  // ---- a goroutine moves without a channel ----

  /** Such a move leaves the leg in its class, and keeps what it pushed and did. */
  predicate SameClass(l: Leg, l': Leg) {
    && l'.pushes == l.pushes && l.acts <= l'.acts
    && InMap(l'.pc) == InMap(l.pc) && SecondPhase(l'.pc) == SecondPhase(l.pc)
    && l'.pc.Queued? == l.pc.Queued? && l'.pc.Overwritten? == l.pc.Overwritten?
    && l'.pc.TakenToCancel? == l.pc.TakenToCancel? && l'.pc.CancelSent? == l.pc.CancelSent?
    && InCancel(l'.pc) == InCancel(l.pc)
    && (FirstPhaseOver(l.pc) ==> FirstPhaseOver(l'.pc))
    && (l.pc.Left2? ==> l'.pc.Left2?)
  }

  lemma MovesKeepsLeg(c: Config, signers: seq<PartyID>, ctxDone: bool, l: Leg, l': Leg, net: Net)
    requires LegOk(c, signers, l) && LegCtx(ctxDone, l) && Moves(c, signers, ctxDone, l, l', net)
    ensures LegOk(c, signers, l') && LegCtx(ctxDone, l')
  {
  }

  lemma MovesKeepsClass(c: Config, signers: seq<PartyID>, ctxDone: bool, l: Leg, l': Leg, net: Net)
    requires LegOk(c, signers, l) && Moves(c, signers, ctxDone, l, l', net)
    ensures SameClass(l, l') && !l.pc.Left2? && !InCancel(l.pc) && !l.pc.Queued?
    ensures l'.pc.Left2? ==> Closed !in l'.acts
    ensures FirstPhaseOver(l.pc) ==> SecondPhase(l.pc)
  {
  }

  ghost predicate AllSameClass(a: seq<Leg>, b: seq<Leg>) {
    |a| == |b| && forall k :: 0 <= k < |a| ==> SameClass(a[k], b[k])
  }

  lemma SameClassSets(a: seq<Leg>, b: seq<Leg>)
    requires AllSameClass(a, b)
    ensures ErrSet(b) == ErrSet(a) && FinSet(b) == FinSet(a) && CancelSet(b) == CancelSet(a)
  {
  }

  lemma ReceivedGrows(a: seq<Leg>, b: seq<Leg>, f: KeySignFinish)
    requires |a| == |b| && Received(a, f)
    requires forall k :: 0 <= k < |a| && SecondPhase(a[k].pc) ==> SecondPhase(b[k].pc) && a[k].acts <= b[k].acts
    ensures Received(b, f)
  {
    var i :| 0 <= i < |a| && SecondPhase(a[i].pc) && Got(KeySignFinishMsg(f)) in a[i].acts;
    assert Got(KeySignFinishMsg(f)) in b[i].acts;
  }

  lemma ResultGrows(s: State, s': State)
    requires ResultInv(s) && |s'.legs| == |s.legs|
    requires forall k :: 0 <= k < |s.legs| && SecondPhase(s.legs[k].pc) ==>
      SecondPhase(s'.legs[k].pc) && s.legs[k].acts <= s'.legs[k].acts
    requires s'.result == s.result && s'.selected == s.selected && (PastFinishers(s.main) ==> PastFinishers(s'.main))
    requires forall f :: f in s'.finishChan ==> f in s.finishChan
    ensures ResultInv(s')
  {
    forall k | 0 <= k < |s'.finishChan| ensures Received(s'.legs, s'.finishChan[k]) {
      assert s'.finishChan[k] in s.finishChan;
      ReceivedGrows(s.legs, s'.legs, s'.finishChan[k]);
    }
    if s.result.Success? {
      var f: KeySignFinish :| f.isSuccess && f.signature == s.result.value && Received(s.legs, f);
      ReceivedGrows(s.legs, s'.legs, f);
      assert ReceivedSignature(s'.legs, s.result.value);
    }
  }

  // The parts that only look at the legs' classes.

  lemma FrameMap(c: Config, s: State, s': State)
    requires MapInv(c, s) && AllSameClass(s.legs, s'.legs) && s'.ready == s.ready
    ensures MapInv(c, s')
  {
  }

  lemma FrameQueue(s: State, s': State)
    requires QueueInv(s) && AllSameClass(s.legs, s'.legs) && s'.readyChan == s.readyChan
    ensures QueueInv(s')
  {
  }

  lemma FramePhase(s: State, s': State)
    requires PhaseInv(s) && AllSameClass(s.legs, s'.legs)
    requires s' == s.(legs := s'.legs)
    ensures PhaseInv(s')
  {
    assert forall k :: 0 <= k < |s.legs| && s'.legs[k].pc.Chosen? ==> s.legs[k].pc.Chosen?;
  }

  lemma FrameCount(s: State, s': State)
    requires CountInv(s) && AllSameClass(s.legs, s'.legs)
    requires s'.errChan == s.errChan && s'.finishChan == s.finishChan && s'.main == s.main && s'.ready == s.ready
    ensures CountInv(s')
  {
    SameClassSets(s.legs, s'.legs);
  }

  lemma FrameCancel(c: Config, s: State, s': State)
    requires CancelInv(c, s) && AllSameClass(s.legs, s'.legs)
    requires s'.canceller == s.canceller && s'.ready == s.ready && s'.selected == s.selected
    requires s'.readyChan == s.readyChan && (s.ctxDone ==> s'.ctxDone)
    ensures CancelInv(c, s')
  {
    SameClassSets(s.legs, s'.legs);
  }

  lemma FrameAll(c: Config, s: State, s': State)
    requires MapInv(c, s) && QueueInv(s) && PhaseInv(s) && CountInv(s) && CancelInv(c, s)
    requires AllSameClass(s.legs, s'.legs) && s' == s.(legs := s'.legs)
    ensures MapInv(c, s') && QueueInv(s') && PhaseInv(s') && CountInv(s') && CancelInv(c, s')
  {
    FrameMap(c, s, s');
    FrameQueue(s, s');
    FramePhase(s, s');
    FrameCount(s, s');
    FrameCancel(c, s, s');
  }

  lemma OneLegClass(a: seq<Leg>, b: seq<Leg>, i: nat)
    requires i < |a| == |b| && b == a[i := b[i]] && SameClass(a[i], b[i])
    ensures AllSameClass(a, b)
  {
  }

  lemma MovesKeepsLegs(c: Config, s: State, s': State, i: nat, net: Net)
    requires LegsInv(c, s) && CloseInv(s) && NextStep(c, s, s', LegMoves(i, net))
    ensures LegsInv(c, s') && CloseInv(s') && AllSameClass(s.legs, s'.legs) && s' == s.(legs := s'.legs)
  {
    MovesKeepsLeg(c, s.signers, s.ctxDone, s.legs[i], s'.legs[i], net);
    MovesKeepsClass(c, s.signers, s.ctxDone, s.legs[i], s'.legs[i], net);
    OneLegClass(s.legs, s'.legs, i);
    MovesKeepsClose(s, s', i);
  }

  lemma MovesKeepsInv(c: Config, s: State, s': State, i: nat, net: Net)
    requires Inv(c, s) && NextStep(c, s, s', LegMoves(i, net))
    ensures Inv(c, s')
  {
    MovesKeepsLegs(c, s, s', i, net);
    FrameAll(c, s, s');
    ResultGrows(s, s');
  }

  lemma MovesKeepsClose(s: State, s': State, i: nat)
    requires CloseInv(s)
    requires i < |s.legs| == |s'.legs| && s' == s.(legs := s.legs[i := s'.legs[i]])
    requires !s.legs[i].pc.Left2? && (s'.legs[i].pc.Left2? ==> Closed !in s'.legs[i].acts)
    ensures CloseInv(s')
  {
  }

  // ---- a goroutine puts something on a channel ----

  /** A goroutine about to put an error on the channel finds room: no other put two there. */
  lemma ErrorRoom(c: Config, s: State, i: nat)
    requires LegsInv(c, s) && CountInv(s) && i < |s.legs| && !PushedError(s.legs[i])
    ensures |s.errChan| <= |ErrSet(s.legs)| < |c.parties|
  {
    assert ErrSet(s.legs) <= Below(|s.legs|) - {i};
    SubsetCard(ErrSet(s.legs), Below(|s.legs|) - {i});
  }

  lemma {:induction false} QueueRoom(c: Config, s: State, i: nat)
    requires LegsInv(c, s) && QueueInv(s) && i < |s.legs| && !s.legs[i].pc.Queued?
    ensures |s.readyChan| < |c.parties|
  {
    DistinctCount(s.readyChan);
    assert ToSet(s.readyChan) <= Below(|s.legs|) - {i};
    SubsetCard(ToSet(s.readyChan), Below(|s.legs|) - {i});
  }

  /** The streams in the ready map are as many as its keys. */
  lemma MapCard(c: Config, s: State)
    requires MapInv(c, s)
    ensures |InMapSet(s.legs)| == |s.ready|
  {
    MapCardAux(s.ready, InMapSet(s.legs), c.parties);
  }

  lemma {:induction false} MapCardAux(ready: map<PartyId, nat>, legs: set<nat>, parties: seq<PartyID>)
    requires forall p :: p in ready ==> ready[p] < |parties| && parties[ready[p]].id == p && ready[p] in legs
    requires forall i :: i in legs ==> i < |parties| && parties[i].id in ready && ready[parties[i].id] == i
    ensures |legs| == |ready|
    decreases |ready|
  {
    if ready == map[] {
      assert legs == {};
    } else {
      var p :| p in ready;
      var i := ready[p];
      var ready' := map q | q in ready && q != p :: ready[q];
      assert ready'.Keys == ready.Keys - {p};
      MapCardAux(ready', legs - {i}, parties);
    }
  }

  lemma FinisherInMap(c: Config, signers: seq<PartyID>, l: Leg)
    requires LegOk(c, signers, l) && Finish2 in l.pushes
    ensures InMap(l.pc)
  {
  }

  lemma FinishRoom(c: Config, s: State, i: nat)
    requires LegsInv(c, s) && MapInv(c, s) && CountInv(s)
    requires i < |s.legs| && SecondPhase(s.legs[i].pc) && Finish2 !in s.legs[i].pushes
    ensures |s.finishChan| <= |FinSet(s.legs)| < |s.ready|
  {
    MapCard(c, s);
    forall k | k in FinSet(s.legs) ensures k in InMapSet(s.legs) {
      FinisherInMap(c, s.signers, s.legs[k]);
    }
    SubsetCard(FinSet(s.legs), InMapSet(s.legs) - {i});
  }

  /** What a push does to a leg, whichever channel it goes to. */
  predicate PushClass(l: Leg, l': Leg) {
    && l'.acts == l.acts && InMap(l'.pc) == InMap(l.pc) && SecondPhase(l'.pc) == SecondPhase(l.pc)
    && !l.pc.Left2? && !l.pc.Queued? && !InCancel(l.pc) && !InCancel(l'.pc) && !l'.pc.Overwritten?
    && (SecondPhase(l.pc) ==> l'.pc.Left2? && Closed !in l'.acts)
    && (FirstPhaseOver(l.pc) ==> SecondPhase(l.pc))
    && !PushedError(l) && Finish2 !in l.pushes
    && l'.pushes != []
  }

  /** What a push does to the state: one leg changes and one channel grows by one. */
  predicate ErrorPushed(s: State, s': State, i: nat, l': Leg) {
    && i < |s.legs| && |s'.errChan| == |s.errChan| + 1 && s' == s.(errChan := s'.errChan, legs := s.legs[i := l'])
    && PushedError(l') && Finish2 !in l'.pushes && !l'.pc.Queued?
  }

  predicate ReadyPushed(s: State, s': State, i: nat, l': Leg) {
    && i < |s.legs| && s' == s.(readyChan := s.readyChan + [i], legs := s.legs[i := l'])
    && !PushedError(l') && Finish2 !in l'.pushes && l'.pc.Queued? && !SecondPhase(l'.pc)
  }

  predicate FinishPushed(s: State, s': State, i: nat, l': Leg, f: KeySignFinish) {
    && i < |s.legs| && s' == s.(finishChan := s.finishChan + [f], legs := s.legs[i := l'])
    && !PushedError(l') && Finish2 in l'.pushes && !l'.pc.Queued?
    && SecondPhase(l'.pc) && Got(KeySignFinishMsg(f)) in l'.acts
  }

  predicate Pushed1(s: State, s': State, i: nat, l': Leg) {
    && i < |s.legs| && PushClass(s.legs[i], l')
    && (ErrorPushed(s, s', i, l') || ReadyPushed(s, s', i, l')
        || (s'.finishChan != [] && FinishPushed(s, s', i, l', s'.finishChan[|s'.finishChan| - 1])))
  }

  /** Which push a goroutine makes, and where it is then. */
  predicate PushOf(pc: Goroutine, p: Push, pc': Goroutine) {
    match pc
    case DialError(_) => p == Error1 && pc' == Gone
    case RejectError(_) => p == Error1 && pc' == CloseUnready
    case PrepareError(_) => p == Error1 && pc' == CloseUnready
    case PushReady => p == Ready1 && pc' == Queued
    case PushError2(_) => p == Error2 && pc' == Left2
    case PushFinish(_) => p == Finish2 && pc' == Left2
    case _ => false
  }

  lemma PushedLegOk(c: Config, signers: seq<PartyID>, ctxDone: bool, l: Leg, p: Push, pc': Goroutine)
    requires LegOk(c, signers, l) && PushOf(l.pc, p, pc')
    ensures LegOk(c, signers, Pushed(l, p, pc')) && LegCtx(ctxDone, Pushed(l, p, pc'))
  {
  }

  lemma PushedLegClass(c: Config, signers: seq<PartyID>, l: Leg, p: Push, pc': Goroutine)
    requires LegOk(c, signers, l) && PushOf(l.pc, p, pc')
    ensures PushClass(l, Pushed(l, p, pc')) && Dropped2 !in Pushed(l, p, pc').pushes
    ensures PushedError(Pushed(l, p, pc')) <==> p == Error1 || p == Error2
    ensures Finish2 in Pushed(l, p, pc').pushes <==> p == Finish2
    ensures l.pc.PushFinish? ==> Got(KeySignFinishMsg(l.pc.finish)) in l.acts
  {
  }

  /** A push finds room, drops nothing, and leaves its goroutine's record in order. */
  lemma PushEffect(c: Config, s: State, s': State, i: nat) returns (l': Leg)
    requires LegsInv(c, s) && CountInv(s) && Pushes(c, s, s', i)
    ensures Pushed1(s, s', i, l') && LegOk(c, s.signers, l') && LegCtx(s.ctxDone, l')
    ensures Dropped2 !in l'.pushes
  {
    var l := s.legs[i];
    assert LegOk(c, s.signers, l);
    if l.pc.PushError2? {
      ErrorRoom(c, s, i);
    }
    var p, pc' := match l.pc
      case PushReady => Ready1
      case PushFinish(_) => Finish2
      case PushError2(_) => Error2
      case _ => Error1,
      match l.pc
      case PushReady => Queued
      case PushFinish(_) => Left2
      case PushError2(_) => Left2
      case DialError(_) => Gone
      case _ => CloseUnready;
    PushedLegOk(c, s.signers, s.ctxDone, l, p, pc');
    PushedLegClass(c, s.signers, l, p, pc');
    l' := Pushed(l, p, pc');
  }

  lemma PushedKeepsLegs(c: Config, s: State, s': State, i: nat, l': Leg)
    requires LegsInv(c, s) && Pushed1(s, s', i, l') && LegOk(c, s.signers, l') && LegCtx(s.ctxDone, l')
    ensures LegsInv(c, s')
  {
    assert s'.legs == s.legs[i := l'];
  }

  lemma PushedKeepsQueue(s: State, s': State, i: nat, l': Leg)
    requires QueueInv(s) && Pushed1(s, s', i, l')
    ensures QueueInv(s')
  {
    assert i !in s.readyChan;
    assert s'.legs == s.legs[i := l'];
  }

  lemma PushedKeepsPlaces(c: Config, s: State, s': State, i: nat, l': Leg)
    requires MapInv(c, s) && PhaseInv(s) && Pushed1(s, s', i, l')
    ensures MapInv(c, s') && PhaseInv(s')
    ensures SecondPhase(s.legs[i].pc) ==> s.main.WaitFinishers?
    ensures !SecondPhase(s.legs[i].pc) ==> s.main.WaitDials?
  {
    assert s'.legs == s.legs[i := l'];
  }

  lemma PushedKeepsClose(s: State, s': State, i: nat, l': Leg)
    requires CloseInv(s) && Pushed1(s, s', i, l')
    requires SecondPhase(s.legs[i].pc) ==> s.main.WaitFinishers?
    requires !SecondPhase(s.legs[i].pc) ==> s.main.WaitDials?
    ensures CloseInv(s')
  {
    assert s'.legs == s.legs[i := l'];
  }

  lemma ErrSetGrows(legs: seq<Leg>, i: nat, l': Leg)
    requires i < |legs| && !PushedError(legs[i])
    ensures |ErrSet(legs[i := l'])| == |ErrSet(legs)| + if PushedError(l') then 1 else 0
  {
    assert ErrSet(legs[i := l']) == if PushedError(l') then ErrSet(legs) + {i} else ErrSet(legs);
  }

  lemma FinSetGrows(legs: seq<Leg>, i: nat, l': Leg)
    requires i < |legs| && Finish2 !in legs[i].pushes
    ensures |FinSet(legs[i := l'])| == |FinSet(legs)| + if Finish2 in l'.pushes then 1 else 0
  {
    assert FinSet(legs[i := l']) == if Finish2 in l'.pushes then FinSet(legs) + {i} else FinSet(legs);
  }

  lemma PushedKeepsCount(s: State, s': State, i: nat, l': Leg)
    requires CountInv(s) && Pushed1(s, s', i, l')
    requires SecondPhase(s.legs[i].pc) ==> s.main.WaitFinishers?
    requires !SecondPhase(s.legs[i].pc) ==> s.main.WaitDials?
    ensures CountInv(s')
  {
    ErrSetGrows(s.legs, i, l');
    FinSetGrows(s.legs, i, l');
    assert s'.main == s.main;
    if ErrorPushed(s, s', i, l') {
    } else if ReadyPushed(s, s', i, l') {
    } else {
      assert |s'.finishChan| == |s.finishChan| + 1;
    }
  }

  lemma PushedKeepsCancel(c: Config, s: State, s': State, i: nat, l': Leg)
    requires CancelInv(c, s) && Pushed1(s, s', i, l')
    requires !SecondPhase(s.legs[i].pc) ==> s.canceller.NotStarted?
    ensures CancelInv(c, s')
  {
    assert s'.legs == s.legs[i := l'];
    assert s'.canceller == s.canceller && s'.ready == s.ready && s'.selected == s.selected;
    assert s'.readyChan == s.readyChan || s.canceller.NotStarted?;
    CancelFramed(c, s, s', i);
  }

  /** One leg changed that the canceller has nothing to do with. */
  lemma CancelFramed(c: Config, s: State, s': State, i: nat)
    requires CancelInv(c, s) && i < |s.legs| == |s'.legs| && s'.legs == s.legs[i := s'.legs[i]]
    requires !InCancel(s.legs[i].pc) && !InCancel(s'.legs[i].pc)
    requires s'.canceller == s.canceller && s'.ready == s.ready && s'.selected == s.selected && s'.ctxDone == s.ctxDone
    requires s'.readyChan == s.readyChan || s.canceller.NotStarted?
    ensures CancelInv(c, s')
  {
    assert CancelSet(s'.legs) == CancelSet(s.legs);
  }

  lemma PushedKeepsResult(s: State, s': State, i: nat, l': Leg)
    requires ResultInv(s) && Pushed1(s, s', i, l')
    ensures ResultInv(s')
  {
    assert s'.legs == s.legs[i := l'];
    var mid := s.(legs := s'.legs);
    ResultGrows(s, mid);
    if s'.finishChan != s.finishChan {
      var f := s'.finishChan[|s'.finishChan| - 1];
      assert SecondPhase(s'.legs[i].pc) && Got(KeySignFinishMsg(f)) in s'.legs[i].acts;
      assert Received(s'.legs, f);
    }
  }

  lemma PushesKeepsInv(c: Config, s: State, s': State, i: nat)
    requires Inv(c, s) && Pushes(c, s, s', i)
    ensures Inv(c, s')
  {
    var l' := PushEffect(c, s, s', i);
    PushedKeepsLegs(c, s, s', i, l');
    PushedKeepsQueue(s, s', i, l');
    PushedKeepsPlaces(c, s, s', i, l');
    PushedKeepsClose(s, s', i, l');
    PushedKeepsCount(s, s', i, l');
    PushedKeepsCancel(c, s, s', i, l');
    PushedKeepsResult(s, s', i, l');
  }

  // ---- main moves without touching a leg ----

  lemma SameLegsKeepsPlaces(c: Config, s: State, s': State)
    requires LegsInv(c, s) && MapInv(c, s)
    requires s'.legs == s.legs && s'.ready == s.ready && s'.signers == s.signers && (s.ctxDone ==> s'.ctxDone)
    ensures LegsInv(c, s') && MapInv(c, s')
  {
  }

  lemma ContextKeepsInv(c: Config, s: State, s': State)
    requires Inv(c, s) && s' == s.(ctxDone := true)
    ensures Inv(c, s')
  {
    SameLegsKeepsPlaces(c, s, s');
  }

  lemma DialsDoneKeepsInv(c: Config, s: State, s': State)
    requires Inv(c, s) && DialsDone(s, s')
    ensures Inv(c, s')
  {
    SameLegsKeepsPlaces(c, s, s');
  }

  lemma FinishersDoneKeepsInv(c: Config, s: State, s': State)
    requires Inv(c, s) && FinishersDone(s, s')
    ensures Inv(c, s')
  {
    SameLegsKeepsPlaces(c, s, s');
  }

  /** The streams that main goes on to close are the selected ones, none closed yet. */
  lemma ValuesAreSelected(c: Config, s: State)
    requires MapInv(c, s) && PhaseInv(s) && s.main.Finishing?
    ensures forall i :: i in Values(s.ready) ==> i < |s.legs| && s.legs[i].pc.Left2?
  {
    forall i | i in Values(s.ready) ensures i < |s.legs| && s.legs[i].pc.Left2? {
      var p :| p in s.ready && s.ready[p] == i;
      assert InMap(s.legs[s.ready[p]].pc);
    }
  }

  /** Main has left one of its loops for the deferred closing. */
  predicate LeftLoop(s: State, s': State) {
    && s' == s.(main := s'.main, result := s'.result, errChan := s'.errChan, finishChan := s'.finishChan)
    && |s'.errChan| <= |s.errChan| && |s'.finishChan| <= |s.finishChan|
    && ((s.main.Selecting? && s'.main.ClosingChans? && s'.finishChan == s.finishChan)
        || (s.main.Finishing? && s'.main.ClosingStreams? && s'.main.open == Values(s.ready)))
  }

  lemma LeftLoopKeeps(c: Config, s: State, s': State)
    requires LegsInv(c, s) && MapInv(c, s) && QueueInv(s) && QuorumInv(c, s) && CancelInv(c, s) && LeftLoop(s, s')
    ensures LegsInv(c, s') && MapInv(c, s') && QueueInv(s') && QuorumInv(c, s') && CancelInv(c, s')
  {
    SameLegsKeepsPlaces(c, s, s');
  }

  lemma LeftLoopKeepsPhase(c: Config, s: State, s': State)
    requires MapInv(c, s) && PhaseInv(s) && CloseInv(s) && CountInv(s) && LeftLoop(s, s')
    ensures PhaseInv(s') && CloseInv(s') && CountInv(s')
  {
    if s.main.Finishing? {
      ValuesAreSelected(c, s);
    }
  }

  lemma LeavesKeepsInv(c: Config, s: State, s': State, errChan: seq<GoString>)
    requires Inv(c, s) && LeavesWith(s, s', errChan) && |errChan| <= |s.errChan|
    ensures Inv(c, s')
  {
    LeftLoopKeeps(c, s, s');
    LeftLoopKeepsPhase(c, s, s');
    assert ResultInv(s') by {
      ResultGrows(s, s'.(result := s.result));
    }
  }

  lemma TakesFinishKeepsResult(s: State, s': State)
    requires ResultInv(s) && s.selected && TakesFinish(s, s')
    ensures ResultInv(s')
  {
    var f := s.finishChan[0];
    assert Received(s.legs, s.finishChan[0]);
    if f.isSuccess {
      assert ReceivedSignature(s'.legs, f.signature);
    }
    assert forall k :: 0 <= k < |s'.finishChan| ==> s'.finishChan[k] == s.finishChan[k + 1];
  }

  lemma TakesFinishKeepsInv(c: Config, s: State, s': State)
    requires Inv(c, s) && TakesFinish(s, s')
    ensures Inv(c, s')
  {
    TakesFinishKeepsResult(s, s');
    if s'.main.Finishing? {
      StillFinishing(c, s, s');
    } else {
      LeftLoopKeeps(c, s, s');
      LeftLoopKeepsPhase(c, s, s');
    }
  }

  lemma StillFinishing(c: Config, s: State, s': State)
    requires LegsInv(c, s) && MapInv(c, s) && QueueInv(s) && PhaseInv(s) && CloseInv(s) && QuorumInv(c, s)
    requires CountInv(s) && CancelInv(c, s) && TakesFinish(s, s') && s'.main.Finishing?
    ensures LegsInv(c, s') && MapInv(c, s') && QueueInv(s') && PhaseInv(s') && CloseInv(s') && QuorumInv(c, s')
    ensures CountInv(s') && CancelInv(c, s')
  {
    SameLegsKeepsPlaces(c, s, s');
  }

  // ---- main closes ----

  lemma ClosesLeg(c: Config, signers: seq<PartyID>, l: Leg)
    requires LegOk(c, signers, l) && l.pc.Left2? && Closed !in l.acts
    ensures LegOk(c, signers, Did(l, Closed)) && SameClass(l, Did(l, Closed))
  {
    assert Did(l, Closed).acts[..|l.acts|] == l.acts;
  }

  lemma ClosesStreamKeepsInv(c: Config, s: State, s': State, i: nat)
    requires Inv(c, s) && Closes(s, s', i) && s.main.ClosingStreams? && s.main.open != {}
    ensures Inv(c, s')
  {
    var mid := s.(legs := s'.legs);
    ClosesKeepsLegs(c, s, s', i);
    FrameAll(c, s, mid);
    ResultGrows(s, s');
    ClosesKeepsPhase(c, mid, s');
  }

  lemma ClosesKeepsLegs(c: Config, s: State, s': State, i: nat)
    requires LegsInv(c, s) && CloseInv(s) && Closes(s, s', i) && s.main.ClosingStreams? && s.main.open != {}
    ensures LegsInv(c, s') && CloseInv(s') && AllSameClass(s.legs, s'.legs)
  {
    ClosesLeg(c, s.signers, s.legs[i]);
    OneLegClass(s.legs, s'.legs, i);
  }

  lemma ClosesKeepsPhase(c: Config, s: State, s': State)
    requires MapInv(c, s) && QueueInv(s) && PhaseInv(s) && CountInv(s) && CancelInv(c, s)
    requires s.main.ClosingStreams? && s'.main.ClosingStreams? && s' == s.(main := s'.main)
    ensures MapInv(c, s') && QueueInv(s') && PhaseInv(s') && CountInv(s') && CancelInv(c, s')
  {
  }

  lemma ClosesChanKeepsInv(c: Config, s: State, s': State, i: nat)
    requires Inv(c, s) && Closes(s, s', i)
    requires s.main.ClosingStreams? ==> s.main.open == {}
    ensures Inv(c, s')
  {
    ClosesChanKeepsPhase(c, s, s', i);
    ClosesChanKeepsRest(c, s, s', i);
    ResultGrows(s, s');
  }

  lemma ClosesChanKeepsRest(c: Config, s: State, s': State, i: nat)
    requires LegsInv(c, s) && MapInv(c, s) && QueueInv(s) && QuorumInv(c, s) && CancelInv(c, s) && Closes(s, s', i)
    requires s.main.ClosingStreams? ==> s.main.open == {}
    ensures LegsInv(c, s') && MapInv(c, s') && QueueInv(s') && QuorumInv(c, s') && CancelInv(c, s')
  {
    SameLegsKeepsPlaces(c, s, s');
  }

  lemma ClosesChanKeepsPhase(c: Config, s: State, s': State, i: nat)
    requires PhaseInv(s) && CloseInv(s) && CountInv(s) && Closes(s, s', i)
    requires s.main.ClosingStreams? ==> s.main.open == {}
    ensures PhaseInv(s') && CloseInv(s') && CountInv(s')
  {
  }

  // ---- main takes a ready stream ----

  /** The state after the stream has entered the map and before the map's size is looked at. */
  function Entered(c: Config, s: State): State
    requires s.readyChan != [] && s.readyChan[0] < |s.legs| == |c.parties|
  {
    var i := s.readyChan[0];
    var id := c.parties[i].id;
    s.(readyChan := s.readyChan[1..], ready := s.ready[id := i], legs := Choose(s.legs, s.ready, id, i))
  }

  /** Entering the map moves the stream and perhaps its party's earlier one, and nothing else. */
  predicate ChoosesLeg(l: Leg, l': Leg) {
    l' == l.(pc := l'.pc) && (l'.pc == l.pc || (l.pc.Queued? && l'.pc.Chosen?) || (l.pc.Chosen? && l'.pc.Overwritten?))
  }

  ghost predicate Chooses(c: Config, s: State, i: nat, legs': seq<Leg>) {
    && |legs'| == |s.legs| == |c.parties| && i < |s.legs| && s.legs[i].pc.Queued? && legs'[i].pc.Chosen?
    && (forall k :: 0 <= k < |s.legs| ==> ChoosesLeg(s.legs[k], legs'[k]))
    && (forall k :: 0 <= k < |s.legs| && k != i ==>
          legs'[k].pc ==
          if c.parties[i].id in s.ready && s.ready[c.parties[i].id] == k then Overwritten else s.legs[k].pc)
  }

  lemma EnteringChooses(c: Config, s: State)
    requires MapInv(c, s) && QueueInv(s) && PhaseInv(s) && s.main.Selecting? && s.readyChan != []
    ensures s.readyChan[0] < |s.legs|
    ensures Chooses(c, s, s.readyChan[0], Entered(c, s).legs)
  {
    var i := s.readyChan[0];
    assert i in s.readyChan;
    var id := c.parties[i].id;
    if id in s.ready {
      var prior := s.ready[id];
      assert InMap(s.legs[prior].pc) && s.legs[prior].pc.Chosen?;
    }
  }

  lemma EnteringKeepsMap(c: Config, s: State, legs': seq<Leg>, i: nat)
    requires MapInv(c, s) && PhaseInv(s) && !s.selected && Chooses(c, s, i, legs')
    ensures MapInv(c, s.(ready := s.ready[c.parties[i].id := i], legs := legs'))
  {
    var id := c.parties[i].id;
    var ready' := s.ready[id := i];
    forall p | p in ready'
      ensures ready'[p] < |legs'| && c.parties[ready'[p]].id == p && InMap(legs'[ready'[p]].pc)
    {
      if p != id {
        assert p in s.ready && s.ready[p] != i;
        assert InMap(s.legs[s.ready[p]].pc);
      }
    }
    forall k | 0 <= k < |legs'| && InMap(legs'[k].pc)
      ensures c.parties[k].id in ready' && ready'[c.parties[k].id] == k
    {
      if k != i {
        assert InMap(s.legs[k].pc);
      }
    }
  }

  lemma ChosenLegOk(c: Config, signers: seq<PartyID>, ctxDone: bool, l: Leg, l': Leg)
    requires LegOk(c, signers, l) && LegCtx(ctxDone, l) && ChoosesLeg(l, l')
    ensures LegOk(c, signers, l') && LegCtx(ctxDone, l')
  {
  }

  lemma EnteringKeepsLegs(c: Config, s: State, legs': seq<Leg>, i: nat)
    requires LegsInv(c, s) && Chooses(c, s, i, legs')
    ensures LegsInv(c, s.(legs := legs'))
  {
    forall k | 0 <= k < |legs'| ensures LegOk(c, s.signers, legs'[k]) && LegCtx(s.ctxDone, legs'[k]) {
      ChosenLegOk(c, s.signers, s.ctxDone, s.legs[k], legs'[k]);
    }
  }

  lemma EnteringKeepsSets(legs: seq<Leg>, legs': seq<Leg>)
    requires |legs'| == |legs| && forall k :: 0 <= k < |legs| ==> ChoosesLeg(legs[k], legs'[k])
    ensures ErrSet(legs') == ErrSet(legs) && CancelSet(legs') == CancelSet(legs)
  {
  }

  lemma EnteringKeepsQueue(c: Config, s: State, legs': seq<Leg>)
    requires QueueInv(s) && s.readyChan != [] && Chooses(c, s, s.readyChan[0], legs')
    ensures QueueInv(s.(readyChan := s.readyChan[1..], legs := legs'))
  {
    var i, rest := s.readyChan[0], s.readyChan[1..];
    assert s.readyChan == [i] + rest;
    assert i !in rest;
    forall k | k in rest ensures k < |legs'| && legs'[k].pc.Queued? {
      assert k in s.readyChan && s.legs[k].pc.Queued?;
      assert ChoosesLeg(s.legs[k], legs'[k]);
    }
    forall k | 0 <= k < |legs'| && legs'[k].pc.Queued? ensures k in rest {
      assert ChoosesLeg(s.legs[k], legs'[k]);
      assert s.legs[k].pc.Queued? && k in s.readyChan && k != i;
    }
  }

  /** All that the invariant says before the selection, but for the bound on the map's size. */
  ghost predicate SelectingInv(c: Config, s: State) {
    && s.main.Selecting? && !s.selected && s.canceller.NotStarted? && s.finishChan == [] && s.result.Failure?
    && !s.finishClosed && !s.chansClosed
    && (forall i :: 0 <= i < |s.legs| ==> FirstPhaseOver(s.legs[i].pc) && !SecondPhase(s.legs[i].pc))
    && LegsInv(c, s) && MapInv(c, s) && QueueInv(s)
    && |s.errChan| == |ErrSet(s.legs)|
    && CancelSet(s.legs) == {}
  }

  lemma EnteredInv(c: Config, s: State)
    requires Inv(c, s) && s.main.Selecting? && s.readyChan != []
    ensures s.readyChan[0] < |s.legs| == |c.parties|
    ensures SelectingInv(c, Entered(c, s))
  {
    EnteringChooses(c, s);
    var i, legs' := s.readyChan[0], Entered(c, s).legs;
    EnteringKeepsMap(c, s, legs', i);
    EnteringKeepsLegs(c, s, legs', i);
    EnteringKeepsSets(s.legs, legs');
    EnteringKeepsQueue(c, s, legs');
    assert s.chansClosed ==> s.main.Returned?;
    EnteredPhase(s, legs');
  }

  lemma EnteredPhase(s: State, legs': seq<Leg>)
    requires PhaseInv(s) && s.main.Selecting? && |legs'| == |s.legs|
    requires forall k :: 0 <= k < |s.legs| ==> ChoosesLeg(s.legs[k], legs'[k])
    ensures forall k :: 0 <= k < |legs'| ==> FirstPhaseOver(legs'[k].pc) && !SecondPhase(legs'[k].pc)
  {
  }

  lemma SelectingIsInv(c: Config, s: State)
    requires SelectingInv(c, s) && |s.ready| < Quorum(c)
    ensures Inv(c, s)
  {
    assert PhaseInv(s);
    assert CloseInv(s);
    assert CancelInv(c, s);
  }

  /** The map never has more keys than there are parties. */
  lemma MapWithinParties(c: Config, s: State)
    requires MapInv(c, s)
    ensures |s.ready| <= |c.parties|
  {
    MapCard(c, s);
    SubsetCard(InMapSet(s.legs), Below(|s.legs|));
  }

  predicate Passes(c: Config, s: State, s': State) {
    s' == s.(selected := true, signers := Signers(c.parties, s.ready.Keys),
             canceller := if |s.ready| < |c.parties| then Draining(|s.ready|) else NotStarted,
             legs := FanOut(s.legs), main := WaitFinishers)
  }

  predicate FansOut(l: Leg, l': Leg) {
    l' == if l.pc.Chosen? then l.(pc := Begin2) else l
  }

  lemma FannedLegOk(c: Config, signers: seq<PartyID>, signers': seq<PartyID>, ctxDone: bool, l: Leg, l': Leg)
    requires LegOk(c, signers, l) && LegCtx(ctxDone, l) && !SecondPhase(l.pc) && FansOut(l, l')
    ensures LegOk(c, signers', l') && LegCtx(ctxDone, l')
    ensures Finish2 !in l'.pushes && PushedError(l') == PushedError(l)
  {
  }

  ghost predicate AllFanOut(legs: seq<Leg>, legs': seq<Leg>) {
    |legs'| == |legs| && forall k :: 0 <= k < |legs| ==> FansOut(legs[k], legs'[k])
  }

  lemma FanOutKeepsLegs(c: Config, s: State, s': State)
    requires LegsInv(c, s) && AllFanOut(s.legs, s'.legs) && s'.ctxDone == s.ctxDone
    requires forall i :: 0 <= i < |s.legs| ==> !SecondPhase(s.legs[i].pc)
    ensures LegsInv(c, s') && FinSet(s'.legs) == {}
  {
    forall k | 0 <= k < |s.legs|
      ensures LegOk(c, s'.signers, s'.legs[k]) && LegCtx(s.ctxDone, s'.legs[k]) && Finish2 !in s'.legs[k].pushes
    {
      FannedLegOk(c, s.signers, s'.signers, s.ctxDone, s.legs[k], s'.legs[k]);
    }
  }

  lemma FanOutKeepsPlaces(c: Config, s: State, s': State)
    requires MapInv(c, s) && QueueInv(s) && AllFanOut(s.legs, s'.legs)
    requires s'.ready == s.ready && s'.readyChan == s.readyChan
    ensures MapInv(c, s') && QueueInv(s')
  {
  }

  lemma FanOutSets(legs: seq<Leg>, legs': seq<Leg>)
    requires AllFanOut(legs, legs')
    ensures ErrSet(legs') == ErrSet(legs) && CancelSet(legs') == CancelSet(legs)
  {
  }

  lemma PassesIsInv(c: Config, s: State, s': State)
    requires SelectingInv(c, s) && Passes(c, s, s') && |s.ready| == Quorum(c)
    ensures Inv(c, s')
  {
    assert AllFanOut(s.legs, s'.legs);
    FanOutKeepsLegs(c, s, s');
    FanOutKeepsPlaces(c, s, s');
    FanOutSets(s.legs, s'.legs);
    MapWithinParties(c, s);
    PassesPhase(s, s');
    PassesCancel(c, s, s');
  }

  lemma PassesPhase(s: State, s': State)
    requires forall i :: 0 <= i < |s.legs| ==> FirstPhaseOver(s.legs[i].pc) && !SecondPhase(s.legs[i].pc)
    requires AllFanOut(s.legs, s'.legs) && s'.main.WaitFinishers? && s'.selected && !s'.finishClosed && !s'.chansClosed
    ensures PhaseInv(s') && CloseInv(s')
  {
    forall k | 0 <= k < |s'.legs|
      ensures FirstPhaseOver(s'.legs[k].pc) && !s'.legs[k].pc.Chosen? && !s'.legs[k].pc.Left2?
    {
      assert FansOut(s.legs[k], s'.legs[k]);
    }
  }

  lemma PassesCancel(c: Config, s: State, s': State)
    requires CancelSet(s.legs) == {} && CancelSet(s'.legs) == {} && Passes(c, s, s') && |s.ready| <= |c.parties|
    ensures CancelInv(c, s')
  {
    assert forall i :: 0 <= i < |s'.legs| ==> i !in CancelSet(s'.legs);
  }

  lemma TakesReadyKeepsInv(c: Config, s: State, s': State)
    requires Inv(c, s) && TakesReady(c, s, s')
    ensures Inv(c, s')
  {
    EnteredInv(c, s);
    var mid := Entered(c, s);
    MapGrows(s.ready, c.parties[s.readyChan[0]].id, s.readyChan[0]);
    if |mid.ready| > c.threshold as int {
      PassesIsInv(c, mid, s');
    } else {
      SelectingIsInv(c, mid);
    }
  }

  lemma MapGrows(ready: map<PartyId, nat>, id: PartyId, i: nat)
    ensures 0 < |ready[id := i]| <= |ready| + 1
  {
    assert ready[id := i].Keys == ready.Keys + {id};
    assert |ready[id := i]| == |ready.Keys + {id}|;
    assert id in ready[id := i];
  }

  // ---- the canceller ----

  lemma CancellerLegOk(c: Config, signers: seq<PartyID>, l: Leg)
    requires LegOk(c, signers, l)
    ensures l.pc.Queued? ==> LegOk(c, signers, l.(pc := TakenToCancel))
    ensures l.pc.TakenToCancel? ==> LegOk(c, signers, Did(l, Sent(KeySignCancelMsg)).(pc := CancelSent))
    ensures l.pc.CancelSent? ==> LegOk(c, signers, Did(l, Closed).(pc := Cancelled))
  {
  }

  /** How the canceller moves a leg: outside the map, the pushes kept. */
  predicate CancelMove(l: Leg, l': Leg) {
    && l'.pushes == l.pushes
    && ((l.pc.Queued? && l'.pc.TakenToCancel?) || (l.pc.TakenToCancel? && l'.pc.CancelSent?)
        || (l.pc.CancelSent? && l'.pc.Cancelled?))
  }

  ghost predicate CancelMoved(s: State, legs': seq<Leg>, i: nat) {
    && |legs'| == |s.legs| && i < |s.legs| && CancelMove(s.legs[i], legs'[i])
    && forall k :: 0 <= k < |s.legs| && k != i ==> legs'[k] == s.legs[k]
  }

  lemma CancelMovedKeepsLegs(c: Config, s: State, legs': seq<Leg>, i: nat)
    requires LegsInv(c, s) && CancelMoved(s, legs', i) && LegOk(c, s.signers, legs'[i])
    ensures LegsInv(c, s.(legs := legs'))
  {
    assert LegCtx(s.ctxDone, legs'[i]);
  }

  lemma CancelMovedKeepsPlaces(c: Config, s: State, legs': seq<Leg>, i: nat)
    requires MapInv(c, s) && PhaseInv(s) && CloseInv(s) && CancelMoved(s, legs', i)
    ensures var s' := s.(legs := legs'); MapInv(c, s') && PhaseInv(s') && CloseInv(s')
  {
    CancelMovedKeepsMap(c, s, legs', i);
    CancelMovedKeepsPhase(s, legs', i);
  }

  lemma CancelMovedKeepsMap(c: Config, s: State, legs': seq<Leg>, i: nat)
    requires MapInv(c, s) && CancelMoved(s, legs', i)
    ensures MapInv(c, s.(legs := legs'))
  {
  }

  lemma CancelMovedKeepsPhase(s: State, legs': seq<Leg>, i: nat)
    requires PhaseInv(s) && CloseInv(s) && CancelMoved(s, legs', i)
    ensures PhaseInv(s.(legs := legs')) && CloseInv(s.(legs := legs'))
  {
  }

  lemma CancelMovedKeepsCount(s: State, legs': seq<Leg>, i: nat)
    requires CountInv(s) && CancelMoved(s, legs', i)
    ensures CountInv(s.(legs := legs'))
  {
    assert ErrSet(legs') == ErrSet(s.legs) && FinSet(legs') == FinSet(s.legs);
  }

  lemma CancelMovedSet(s: State, legs': seq<Leg>, i: nat)
    requires CancelMoved(s, legs', i)
    ensures |CancelSet(legs')| == |CancelSet(s.legs)| + if s.legs[i].pc.Queued? then 1 else 0
  {
    assert CancelSet(legs') == CancelSet(s.legs) + {i};
    assert s.legs[i].pc.Queued? ==> i !in CancelSet(s.legs);
    assert !s.legs[i].pc.Queued? ==> CancelSet(legs') == CancelSet(s.legs);
  }

  lemma CancelMovedQueue(s: State, legs': seq<Leg>, i: nat)
    requires QueueInv(s) && CancelMoved(s, legs', i)
    requires s.legs[i].pc.Queued? ==> s.readyChan != [] && s.readyChan[0] == i
    ensures QueueInv(s.(legs := legs', readyChan := if s.legs[i].pc.Queued? then s.readyChan[1..] else s.readyChan))
  {
    if s.legs[i].pc.Queued? {
      var rest := s.readyChan[1..];
      assert s.readyChan == [i] + rest;
      assert i !in rest;
      forall k | k in rest ensures k < |legs'| && legs'[k].pc.Queued? {
        assert k in s.readyChan && k != i;
      }
    }
  }

  lemma CancelMovedKeepsResult(s: State, s': State, i: nat)
    requires ResultInv(s) && CancelMoved(s, s'.legs, i)
    requires s'.result == s.result && s'.selected == s.selected && s'.main == s.main && s'.finishChan == s.finishChan
    ensures ResultInv(s')
  {
    assert !SecondPhase(s.legs[i].pc);
    ResultGrows(s, s');
  }

  /** When the canceller has counted up to the number of parties, no ready stream is left. */
  lemma CountedAll(c: Config, s: State)
    requires MapInv(c, s) && QueueInv(s)
    requires |s.ready| + |CancelSet(s.legs)| == |c.parties|
    ensures s.readyChan == []
  {
    MapCard(c, s);
    BothCard(s.legs);
    EveryoneCounted(s);
  }

  lemma EveryoneCounted(s: State)
    requires QueueInv(s)
    requires |InMapSet(s.legs) + CancelSet(s.legs)| == |s.legs|
    requires InMapSet(s.legs) + CancelSet(s.legs) <= Below(|s.legs|)
    ensures s.readyChan == []
  {
    if s.readyChan != [] {
      QueuedOutside(s, s.readyChan[0]);
      SomeoneOutside(s.readyChan[0], InMapSet(s.legs) + CancelSet(s.legs), |s.legs|);
    }
  }

  lemma QueuedOutside(s: State, i: nat)
    requires QueueInv(s) && i in s.readyChan
    ensures i < |s.legs| && i !in InMapSet(s.legs) && i !in CancelSet(s.legs)
  {
  }

  lemma SomeoneOutside(i: nat, counted: set<nat>, n: nat)
    requires counted <= Below(n) && i < n && i !in counted
    ensures |counted| < n
  {
    SubsetCard(counted, Below(n) - {i});
  }

  lemma BothCard(legs: seq<Leg>)
    ensures |InMapSet(legs) + CancelSet(legs)| == |InMapSet(legs)| + |CancelSet(legs)|
    ensures InMapSet(legs) + CancelSet(legs) <= Below(|legs|)
  {
    assert InMapSet(legs) * CancelSet(legs) == {};
  }

  lemma CancelsKeepsInv(c: Config, s: State, s': State)
    requires Inv(c, s) && Cancels(c, s, s')
    ensures Inv(c, s')
  {
    if s.canceller.Draining? && s'.canceller.Ended? {
      CancellerStops(c, s, s');
    } else {
      var i := if s.canceller.Draining? then s.readyChan[0] else s.canceller.i;
      CancelStepMoves(c, s, s', i);
      CancelStepKeepsLegs(c, s, s', i);
      CancelStepKeepsBooks(c, s, s', i);
      CancelMovedKeepsResult(s, s', i);
    }
  }

  lemma CancellerStops(c: Config, s: State, s': State)
    requires Inv(c, s) && s.canceller.Draining? && s' == s.(canceller := Ended)
    requires s.ctxDone || s.readyChan == []
    ensures Inv(c, s')
  {
    SameLegsKeepsPlaces(c, s, s');
    ResultGrows(s, s');
    StoppedKeepsBooks(c, s, s');
  }

  lemma StoppedKeepsBooks(c: Config, s: State, s': State)
    requires CancelInv(c, s) && PhaseInv(s) && CloseInv(s) && CountInv(s) && QuorumInv(c, s) && QueueInv(s)
    requires s.canceller.Draining? && s' == s.(canceller := Ended) && (s.ctxDone || s.readyChan == [])
    ensures CancelInv(c, s') && PhaseInv(s') && CloseInv(s') && CountInv(s') && QuorumInv(c, s') && QueueInv(s')
  {
  }

  /** What a move of the canceller that moves a leg does. */
  ghost predicate CancelStep(c: Config, s: State, s': State, i: nat) {
    && CancelMoved(s, s'.legs, i) && LegOk(c, s.signers, s'.legs[i])
    && (s.legs[i].pc.Queued? ==> s.readyChan != [])
    && s' == s.(legs := s'.legs, canceller := s'.canceller,
                readyChan := if s.legs[i].pc.Queued? then s.readyChan[1..] else s.readyChan)
    && match s.canceller
       case Draining(cnt) =>
         && s.legs[i].pc.Queued? && s'.legs[i].pc.TakenToCancel? && s.readyChan != [] && s.readyChan[0] == i
         && s'.canceller == HasStream(cnt + 1, i)
       case HasStream(cnt, j) =>
         && j == i && s.legs[i].pc.TakenToCancel? && s'.legs[i].pc.CancelSent? && s'.canceller == HasSent(cnt, i)
       case HasSent(cnt, j) =>
         && j == i && s.legs[i].pc.CancelSent? && s'.legs[i].pc.Cancelled?
         && s'.canceller == if cnt == |c.parties| then Ended else Draining(cnt)
       case _ => false
  }

  lemma CancelStepKeepsLegs(c: Config, s: State, s': State, i: nat)
    requires LegsInv(c, s) && MapInv(c, s) && PhaseInv(s) && CloseInv(s) && CountInv(s) && QueueInv(s)
    requires CancelStep(c, s, s', i) && s.selected
    ensures LegsInv(c, s') && MapInv(c, s') && PhaseInv(s') && CloseInv(s') && CountInv(s') && QueueInv(s')
  {
    CancelMovedKeepsLegs(c, s, s'.legs, i);
    CancelMovedKeepsPlaces(c, s, s'.legs, i);
    CancelMovedKeepsCount(s, s'.legs, i);
    CancelMovedQueue(s, s'.legs, i);
    CancelFramesMain(c, s.(legs := s'.legs), s');
  }

  lemma CancelFramesMain(c: Config, s: State, s': State)
    requires LegsInv(c, s) && MapInv(c, s) && PhaseInv(s) && CloseInv(s) && CountInv(s) && s.selected
    requires s' == s.(canceller := s'.canceller, readyChan := s'.readyChan)
    ensures LegsInv(c, s') && MapInv(c, s') && PhaseInv(s') && CloseInv(s') && CountInv(s')
  {
  }

  lemma CancelStepKeepsBooks(c: Config, s: State, s': State, i: nat)
    requires QuorumInv(c, s) && CancelInv(c, s) && CancelStep(c, s, s', i)
    requires MapInv(c, s') && QueueInv(s')
    ensures QuorumInv(c, s') && CancelInv(c, s')
  {
    CancelMovedSet(s, s'.legs, i);
    CancelStepPlaces(c, s, s', i);
    if s'.canceller.Ended? {
      CountedAll(c, s');
    }
  }

  lemma CancelStepMoves(c: Config, s: State, s': State, i: nat)
    requires LegsInv(c, s) && QueueInv(s) && CancelInv(c, s) && Cancels(c, s, s')
    requires s.canceller.Draining? ==> !s'.canceller.Ended? && s.readyChan != [] && i == s.readyChan[0]
    requires s.canceller.HasStream? || s.canceller.HasSent? ==> i == s.canceller.i
    ensures CancelStep(c, s, s', i)
  {
    if s.canceller.Draining? {
      assert i in s.readyChan;
    }
    CancellerLegOk(c, s.signers, s.legs[i]);
  }

  lemma CancelStepPlaces(c: Config, s: State, s': State, i: nat)
    requires CancelInv(c, s) && CancelStep(c, s, s', i)
    ensures forall k :: 0 <= k < |s'.legs| && s'.legs[k].pc.TakenToCancel? ==>
      s'.canceller.HasStream? && s'.canceller.i == k
    ensures forall k :: 0 <= k < |s'.legs| && s'.legs[k].pc.CancelSent? ==> s'.canceller.HasSent? && s'.canceller.i == k
  {
  }

  // ---- all steps ----

  lemma ClosesKeepsInv(c: Config, s: State, s': State, i: nat)
    requires Inv(c, s) && Closes(s, s', i)
    ensures Inv(c, s')
  {
    if s.main.ClosingStreams? && s.main.open != {} {
      ClosesStreamKeepsInv(c, s, s', i);
    } else {
      ClosesChanKeepsInv(c, s, s', i);
    }
  }

  lemma LeavingKeepsInv(c: Config, s: State, s': State, step: Step)
    requires Inv(c, s) && NextStep(c, s, s', step)
    requires step.MainTakesError? || step.MainGivesUp? || step.MainSeesClosed?
    ensures Inv(c, s')
  {
    LeavesKeepsInv(c, s, s', if step.MainTakesError? then s.errChan[1..] else s.errChan);
  }

  /** Main's steps that take something, or that a phase is over. */
  lemma TakingKeepsInv(c: Config, s: State, s': State, step: Step)
    requires Inv(c, s) && NextStep(c, s, s', step)
    requires step.MainDialsDone? || step.MainTakesReady? || step.MainFinishersDone? || step.MainTakesFinish?
    ensures Inv(c, s')
  {
    match step {
      case MainDialsDone => DialsDoneKeepsInv(c, s, s');
      case MainTakesReady => TakesReadyKeepsInv(c, s, s');
      case MainFinishersDone => FinishersDoneKeepsInv(c, s, s');
      case MainTakesFinish => TakesFinishKeepsInv(c, s, s');
    }
  }

  lemma MainStepKeepsInv(c: Config, s: State, s': State, step: Step)
    requires Inv(c, s) && NextStep(c, s, s', step)
    requires !step.ContextDone? && !step.LegMoves? && !step.LegPushes? && !step.CancellerMoves?
    ensures Inv(c, s')
  {
    if step.MainCloses? {
      ClosesKeepsInv(c, s, s', step.i);
    } else if step.MainTakesError? || step.MainGivesUp? || step.MainSeesClosed? {
      LeavingKeepsInv(c, s, s', step);
    } else {
      TakingKeepsInv(c, s, s', step);
    }
  }

  /** The steps of goroutines, of the canceller and of the context. */
  lemma SideStepKeepsInv(c: Config, s: State, s': State, step: Step)
    requires Inv(c, s) && NextStep(c, s, s', step)
    requires step.ContextDone? || step.LegMoves? || step.LegPushes? || step.CancellerMoves?
    ensures Inv(c, s')
  {
    match step {
      case ContextDone => ContextKeepsInv(c, s, s');
      case LegMoves(i, net) => MovesKeepsInv(c, s, s', i, net);
      case LegPushes(i) => PushesKeepsInv(c, s, s', i);
      case CancellerMoves => CancelsKeepsInv(c, s, s');
    }
  }

  lemma StepKeepsInv(c: Config, s: State, s': State, step: Step)
    requires Inv(c, s) && NextStep(c, s, s', step)
    ensures Inv(c, s')
  {
    if step.ContextDone? || step.LegMoves? || step.LegPushes? || step.CancellerMoves? {
      SideStepKeepsInv(c, s, s', step);
    } else {
      MainStepKeepsInv(c, s, s', step);
    }
  }

  lemma NextKeepsInv(c: Config, s: State, s': State)
    requires Inv(c, s) && Next(c, s, s')
    ensures Inv(c, s')
  {
    var step :| NextStep(c, s, s', step);
    StepKeepsInv(c, s, s', step);
  }

  lemma {:induction false} RunInv(c: Config, run: seq<State>, k: nat)
    requires Run(c, run) && k < |run|
    ensures Inv(c, run[k])
  {
    if k == 0 {
      InitInv(c);
    } else {
      RunInv(c, run, k - 1);
      assert Next(c, run[k - 1], run[k - 1 + 1]);
      NextKeepsInv(c, run[k - 1], run[k]);
    }
  }

  /** The invariant holds in every reachable state. */
  lemma ReachableInv(c: Config, s: State)
    requires Reachable(c, s)
    ensures Inv(c, s)
  {
    var run :| Run(c, run) && run[|run| - 1] == s;
    RunInv(c, run, |run| - 1);
  }
}
