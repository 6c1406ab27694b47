/**
 * Why KeySign fails. With the context alive, the error that it returns is one that a goroutine put on
 * the error channel, or every selected participant failed and it is the last one's reason.
 */
module KeySignFailure {
  import opened Wrappers
  import opened TssTypes
  import opened SeqLemmas
  import opened KeySignModel
  import opened KeySignInvariant
  import opened KeySignTheorems
  import opened KeySignStreams
  import opened KeySignClosing

  // ---- one goroutine ----

  /** The error that a goroutine is about to put on the error channel. */
  function ErrorOf(pc: Goroutine): Option<GoString> {
    match pc
    case DialError(error) => Some(error)
    case RejectError(error) => Some(error)
    case PrepareError(error) => Some(error)
    case PushError2(error) => Some(error)
    case _ => None
  }

  ghost predicate GotFinish(l: Leg, f: KeySignFinish) {
    Got(KeySignFinishMsg(f)) in l.acts
  }

  /** A participant that answered Prepare with a Finish is reported with its own reason. */
  ghost predicate ReasonOk(l: Leg) {
    && (l.pc.RejectError? || l.pc.PrepareError? || l.pc.PushError2? ==>
          forall f :: GotFinish(l, f) ==> l.pc.RejectError? && l.pc.error == f.failureReason)
    && (l.pc.RejectError? ==> exists f :: GotFinish(l, f))
  }

  /** Who put a finish on the channel had received one. */
  ghost predicate FinishOk(l: Leg) {
    Finish2 in l.pushes ==> exists f :: GotFinish(l, f)
  }

  lemma MoveKeepsReason(c: Config, signers: seq<PartyID>, ctxDone: bool, l: Leg, l': Leg, net: Net)
    requires LegOk(c, signers, l) && Moves(c, signers, ctxDone, l, l', net) && ReasonOk(l) && FinishOk(l)
    ensures ReasonOk(l') && FinishOk(l')
  {
    if l'.pc.RejectError? && !l.pc.RejectError? {
      assert net.Delivers? && net.m.KeySignFinishMsg? && l'.acts == l.acts + [Got(net.m)];
      assert GotFinish(l', net.m.keySignFinish) by {
        assert l'.acts[|l.acts|] == Got(net.m);
      }
    }
    if Finish2 in l.pushes {
      var f :| GotFinish(l, f);
      assert GotFinish(l', f);
    }
  }

  lemma PushKeepsReason(c: Config, signers: seq<PartyID>, l: Leg, p: Push, pc': Goroutine)
    requires LegOk(c, signers, l) && ReasonOk(l) && FinishOk(l)
    requires PushOf(l.pc, p, pc') || (l.pc.PushError2? && p == Dropped2 && pc' == Left2)
    ensures ReasonOk(Pushed(l, p, pc')) && FinishOk(Pushed(l, p, pc'))
  {
    if p == Finish2 {
      assert l.acts[3] == Got(KeySignFinishMsg(l.pc.finish));
      assert GotFinish(Pushed(l, p, pc'), l.pc.finish);
    }
  }

  // ---- the finish channel ----

  /** A success that was put on the channel and not taken is still there. */
  ghost predicate SuccessWaits(s: State) {
    s.main.WaitFinishers? || s.main.Finishing? ==>
      forall i, f: KeySignFinish ::
        0 <= i < |s.legs| && Finish2 in s.legs[i].pushes && GotFinish(s.legs[i], f) && f.isSuccess ==> f in s.finishChan
  }

  ghost predicate ReasonInv(s: State) {
    forall i :: 0 <= i < |s.legs| ==> ReasonOk(s.legs[i]) && FinishOk(s.legs[i])
  }

  /** A leg that neither received nor pushed anything, nor is about to report an error it was not. */
  predicate MovedOn(l: Leg, l': Leg) {
    && l'.pushes == l.pushes
    && (l'.acts == l.acts || l'.acts == l.acts + [Closed] || l'.acts == l.acts + [Sent(KeySignCancelMsg)])
    && (l'.pc == l.pc || (!l'.pc.RejectError? && !l'.pc.PrepareError? && !l'.pc.PushError2?))
  }

  lemma MovedOnOk(l: Leg, l': Leg)
    requires ReasonOk(l) && FinishOk(l) && MovedOn(l, l')
    ensures ReasonOk(l') && FinishOk(l')
    ensures forall f :: GotFinish(l', f) <==> GotFinish(l, f)
  {
    assert forall f :: GotFinish(l', f) <==> GotFinish(l, f);
    if Finish2 in l.pushes {
      var f :| GotFinish(l, f);
      assert GotFinish(l', f);
    }
  }

  ghost predicate AllMovedOn(legs: seq<Leg>, legs': seq<Leg>) {
    |legs'| == |legs| && forall k :: 0 <= k < |legs| ==> MovedOn(legs[k], legs'[k])
  }

  lemma AllMovedOnOk(s: State, s': State)
    requires ReasonInv(s) && AllMovedOn(s.legs, s'.legs)
    ensures ReasonInv(s')
    ensures forall k, f :: 0 <= k < |s.legs| ==> (GotFinish(s'.legs[k], f) <==> GotFinish(s.legs[k], f))
  {
    forall k | 0 <= k < |s.legs|
      ensures ReasonOk(s'.legs[k]) && FinishOk(s'.legs[k])
      ensures forall f :: GotFinish(s'.legs[k], f) <==> GotFinish(s.legs[k], f)
    {
      assert MovedOn(s.legs[k], s'.legs[k]);
      MovedOnOk(s.legs[k], s'.legs[k]);
    }
  }

  lemma AfterReadyLegs(c: Config, s: State)
    requires ReadyToTake(c, s)
    ensures AllMovedOn(s.legs, AfterReady(c, s).legs)
  {
  }

  lemma CancelMovesOn(c: Config, s: State, s': State)
    requires Cancels(c, s, s')
    ensures AllMovedOn(s.legs, s'.legs) && SameMain(s, s') && s'.finishChan == s.finishChan && s'.errChan == s.errChan
  {
  }

  lemma ClosesMovesOn(s: State, s': State, i: nat)
    requires Closes(s, s', i)
    ensures AllMovedOn(s.legs, s'.legs)
  {
  }

  // ---- the steps ----

  lemma MoveKeepsReasons(c: Config, s: State, s': State, i: nat, net: Net)
    requires LegsInv(c, s) && ReasonInv(s) && SuccessWaits(s) && NextStep(c, s, s', LegMoves(i, net))
    ensures ReasonInv(s') && SuccessWaits(s')
  {
    MoveKeepsReason(c, s.signers, s.ctxDone, s.legs[i], s'.legs[i], net);
    MoveReceives(c, s.signers, s.ctxDone, s.legs[i], s'.legs[i], net);
  }

  /** A goroutine that already put its finish on the channel receives nothing more. */
  lemma MoveReceives(c: Config, signers: seq<PartyID>, ctxDone: bool, l: Leg, l': Leg, net: Net)
    requires LegOk(c, signers, l) && Moves(c, signers, ctxDone, l, l', net)
    ensures l'.pushes == l.pushes && Finish2 !in l.pushes
  {
  }

  /** What a push does, by what is put where. */
  lemma PushShape(c: Config, s: State, s': State, i: nat) returns (p: Push, pc': Goroutine)
    requires Pushes(c, s, s', i)
    ensures i < |s.legs| && s'.legs == s.legs[i := Pushed(s.legs[i], p, pc')] && SameMain(s, s')
    ensures var pc := s.legs[i].pc; PushOf(pc, p, pc') || (pc.PushError2? && p == Dropped2 && pc' == Left2)
    ensures p == Finish2 <==> s.legs[i].pc.PushFinish?
    ensures s'.finishChan == if p == Finish2 then s.finishChan + [s.legs[i].pc.finish] else s.finishChan
    ensures s'.errChan == if p == Error1 || p == Error2 then s.errChan + [ErrorOf(s.legs[i].pc).value] else s.errChan
    ensures s'.result == s.result
  {
    match s.legs[i].pc {
      case DialError(_) => p, pc' := Error1, Gone;
      case RejectError(_) => p, pc' := Error1, CloseUnready;
      case PrepareError(_) => p, pc' := Error1, CloseUnready;
      case PushReady => p, pc' := Ready1, Queued;
      case PushError2(_) => p, pc' := if Room(s.errChan, |c.parties|) then Error2 else Dropped2, Left2;
      case PushFinish(_) => p, pc' := Finish2, Left2;
    }
  }

  lemma PushKeepsReasons(c: Config, s: State, s': State, i: nat)
    requires LegsInv(c, s) && ReasonInv(s) && SuccessWaits(s) && Pushes(c, s, s', i)
    ensures ReasonInv(s') && SuccessWaits(s')
  {
    var p, pc' := PushShape(c, s, s', i);
    assert LegOk(c, s.signers, s.legs[i]);
    PushKeepsReason(c, s.signers, s.legs[i], p, pc');
    OneReasonKept(s, s', i, Pushed(s.legs[i], p, pc'));
    PushKeepsWaiting(c, s, s', i, p, pc');
  }

  lemma OneReasonKept(s: State, s': State, i: nat, l': Leg)
    requires ReasonInv(s) && i < |s.legs| && s'.legs == s.legs[i := l'] && ReasonOk(l') && FinishOk(l')
    ensures ReasonInv(s')
  {
  }

  lemma PushKeepsWaiting(c: Config, s: State, s': State, i: nat, p: Push, pc': Goroutine)
    requires SuccessWaits(s) && i < |s.legs| && LegOk(c, s.signers, s.legs[i]) && s'.main == s.main
    requires s'.legs == s.legs[i := Pushed(s.legs[i], p, pc')] && (p == Finish2 ==> s.legs[i].pc.PushFinish?)
    requires s'.finishChan == if p == Finish2 then s.finishChan + [s.legs[i].pc.finish] else s.finishChan
    ensures SuccessWaits(s')
  {
    forall k, f: KeySignFinish |
      0 <= k < |s'.legs| && Finish2 in s'.legs[k].pushes && GotFinish(s'.legs[k], f) && f.isSuccess
      && (s.main.WaitFinishers? || s.main.Finishing?)
      ensures f in s'.finishChan
    {
      if k == i && p == Finish2 {
        OnlyFinish(c, s.signers, s.legs[i], f);
        assert s'.finishChan[|s.finishChan|] == f;
      } else {
        assert Finish2 in s.legs[k].pushes && GotFinish(s.legs[k], f);
      }
    }
  }

  /** A goroutine about to put a finish on the channel has received that one only. */
  lemma OnlyFinish(c: Config, signers: seq<PartyID>, l: Leg, f: KeySignFinish)
    requires LegOk(c, signers, l) && l.pc.PushFinish? && GotFinish(l, f)
    ensures f == l.pc.finish
  {
    assert l.acts == [Sent(KeySignPrepareMsg(c.prepare)), Got(KeySignReadyMsg)]
      + [Sent(KeySignStartMsg(signers)), Got(KeySignFinishMsg(l.pc.finish))];
  }

  /** Main's own steps, but the one that takes a finish. */
  lemma OthersKeepWaiting(s: State, s': State)
    requires ReasonInv(s) && SuccessWaits(s) && AllMovedOn(s.legs, s'.legs)
    requires s'.main.WaitFinishers? || s'.main.Finishing? ==>
      s'.finishChan == s.finishChan && (s.main.WaitFinishers? || s.main.Finishing? || NoneFinished(s))
    ensures ReasonInv(s') && SuccessWaits(s')
  {
    AllMovedOnOk(s, s');
    forall k, f: KeySignFinish |
      0 <= k < |s'.legs| && Finish2 in s'.legs[k].pushes && GotFinish(s'.legs[k], f) && f.isSuccess
      && (s'.main.WaitFinishers? || s'.main.Finishing?)
      ensures f in s'.finishChan
    {
      assert MovedOn(s.legs[k], s'.legs[k]) && GotFinish(s.legs[k], f);
    }
  }

  ghost predicate NoneFinished(s: State) {
    forall k :: 0 <= k < |s.legs| ==> Finish2 !in s.legs[k].pushes
  }

  lemma SelectingNoneFinished(c: Config, s: State)
    requires LegsInv(c, s) && PhaseInv(s) && s.main.Selecting?
    ensures NoneFinished(s)
  {
    forall k | 0 <= k < |s.legs| ensures Finish2 !in s.legs[k].pushes {
      FirstPhaseNoFinish(c, s.signers, s.legs[k]);
    }
  }

  lemma FirstPhaseNoFinish(c: Config, signers: seq<PartyID>, l: Leg)
    requires LegOk(c, signers, l) && !SecondPhase(l.pc)
    ensures Finish2 !in l.pushes
  {
  }

  /** Taking a finish that does not end the loop takes a failure. */
  lemma TakingKeepsWaiting(s: State, s': State)
    requires ReasonInv(s) && SuccessWaits(s) && TakesFinish(s, s')
    ensures ReasonInv(s') && SuccessWaits(s')
  {
    assert s'.legs == s.legs;
    if s'.main.Finishing? {
      forall f: KeySignFinish | f.isSuccess && f in s.finishChan ensures f in s'.finishChan {
        assert f != s.finishChan[0];
        assert s.finishChan == [s.finishChan[0]] + s'.finishChan;
      }
    }
  }

  lemma MainKeepsReasons(c: Config, s: State, s': State, step: Step)
    requires LegsInv(c, s) && PhaseInv(s) && ReasonInv(s) && SuccessWaits(s) && NextStep(c, s, s', step)
    requires !step.LegMoves? && !step.LegPushes? && !step.CancellerMoves?
    ensures ReasonInv(s') && SuccessWaits(s')
  {
    match step {
      case MainTakesFinish => TakingKeepsWaiting(s, s');
      case MainTakesReady =>
        AfterReadyLegs(c, s);
        SelectingNoneFinished(c, s);
        AfterReadyChan(c, s);
        OthersKeepWaiting(s, s');
      case MainCloses(i) =>
        ClosesMovesOn(s, s', i);
        OthersKeepWaiting(s, s');
      case _ =>
        LegsStay(c, s, s', step);
        OthersKeepWaiting(s, s');
    }
  }

  lemma AfterReadyChan(c: Config, s: State)
    requires ReadyToTake(c, s)
    ensures AfterReady(c, s).finishChan == s.finishChan
  {
  }

  lemma LegsStay(c: Config, s: State, s': State, step: Step)
    requires NextStep(c, s, s', step)
    requires step.ContextDone? || step.MainDialsDone? || step.MainTakesError? || step.MainGivesUp?
          || step.MainSeesClosed? || step.MainFinishersDone?
    ensures AllMovedOn(s.legs, s'.legs)
    ensures s'.main.WaitFinishers? || s'.main.Finishing? ==>
      s'.finishChan == s.finishChan && (s.main.WaitFinishers? || s.main.Finishing?)
  {
    assert s'.legs == s.legs;
  }

  lemma StepKeepsReasons(c: Config, s: State, s': State, step: Step)
    requires LegsInv(c, s) && PhaseInv(s) && ReasonInv(s) && SuccessWaits(s) && NextStep(c, s, s', step)
    ensures ReasonInv(s') && SuccessWaits(s')
  {
    match step {
      case LegMoves(i, net) => MoveKeepsReasons(c, s, s', i, net);
      case LegPushes(i) => PushKeepsReasons(c, s, s', i);
      case CancellerMoves =>
        CancelMovesOn(c, s, s');
        OthersKeepWaiting(s, s');
      case _ => MainKeepsReasons(c, s, s', step);
    }
  }

  // ---- runs ----

  predicate PastLoops(m: Main) {
    m.ClosingStreams? || m.ClosingFinishChan? || m.ClosingChans? || m.Returned?
  }

  /** In step `k` goroutine `i` put this error on the error channel; if it had received a Finish, the
      error is the reason in that. */
  ghost predicate PutError(c: Config, run: seq<State>, k: nat, i: nat, e: GoString) {
    && k + 1 < |run| && i < |run[k].legs|
    && ErrorOf(run[k].legs[i].pc) == Some(e) && Pushes(c, run[k], run[k + 1], i)
    && forall f :: GotFinish(run[k].legs[i], f) ==> e == f.failureReason
  }

  /** Some goroutine put this error on the error channel before state `n`. */
  ghost predicate WasPut(c: Config, run: seq<State>, n: nat, e: GoString) {
    exists k: nat, i: nat :: k < n && PutError(c, run, k, i, e)
  }

  /** The last message that was put on the finish channel. */
  ghost function LastPut(run: seq<State>, n: nat): Option<KeySignFinish>
    requires n < |run|
  {
    if n == 0 then None
    else if |run[n].finishChan| > |run[n - 1].finishChan| then Some(run[n].finishChan[|run[n].finishChan| - 1])
    else LastPut(run, n - 1)
  }

  /** The participant of the stream answered Start with a failure. */
  ghost predicate FailedLeg2(l: Leg, f: KeySignFinish) {
    SecondPhase(l.pc) && GotFinish(l, f) && !f.isSuccess
  }

  /** Every stream in the map received a failed Finish, this reason among them. */
  ghost predicate AllFailed(s: State, reason: GoString) {
    && (forall i: nat :: i in s.ready.Values ==> i < |s.legs| && exists f :: FailedLeg2(s.legs[i], f))
    && exists i: nat, f ::
         i in s.ready.Values && i < |s.legs| && FailedLeg2(s.legs[i], f) && f.failureReason == reason
  }

  /** Every error on the channel was put there by a goroutine. */
  ghost predicate ErrorsPut(c: Config, run: seq<State>, n: nat)
    requires n < |run|
  {
    forall e :: e in run[n].errChan ==> WasPut(c, run, n, e)
  }

  ghost predicate FailureInv(c: Config, run: seq<State>, n: nat)
    requires n < |run|
  {
    var s := run[n];
    && ReasonInv(s) && SuccessWaits(s)
    && ErrorsPut(c, run, n)
    && (s.finishChan != [] ==> LastPut(run, n) == Some(s.finishChan[|s.finishChan| - 1]))
    && (PastLoops(s.main) && s.result.Failure? && !s.ctxDone ==> Caused(c, run, n, s.result.error))
  }

  ghost predicate Caused(c: Config, run: seq<State>, n: nat, e: GoString)
    requires n < |run|
  {
    || WasPut(c, run, n, e)
    || (AllFailed(run[n], e) && LastPut(run, n).Some? && LastPut(run, n).value.failureReason == e)
  }

  lemma PutStays(c: Config, run: seq<State>, n: nat, m: nat, e: GoString)
    requires WasPut(c, run, n, e) && n <= m
    ensures WasPut(c, run, m, e)
  {
    var k: nat, i: nat :| k < n && PutError(c, run, k, i, e);
  }

  /** How the finish channel changes in a step. */
  lemma FinishChanStep(c: Config, s: State, s': State, step: Step)
    requires NextStep(c, s, s', step)
    ensures
      || s'.finishChan == s.finishChan
      || (|s'.finishChan| == |s.finishChan| + 1 && s'.finishChan[..|s.finishChan|] == s.finishChan)
      || (step.MainTakesFinish? && s.finishChan != [] && s'.finishChan == s.finishChan[1..])
  {
    match step {
      case LegPushes(i) => var p, pc' := PushShape(c, s, s', i);
      case CancellerMoves => CancelledLegMoves(c, s, s');
      case MainTakesReady => AfterReadyChan(c, s);
      case _ =>
    }
  }

  lemma LastKept(c: Config, run: seq<State>, n: nat, step: Step)
    requires n + 1 < |run| && NextStep(c, run[n], run[n + 1], step)
    requires run[n].finishChan != [] ==> LastPut(run, n) == Some(run[n].finishChan[|run[n].finishChan| - 1])
    ensures run[n + 1].finishChan != [] ==>
      LastPut(run, n + 1) == Some(run[n + 1].finishChan[|run[n + 1].finishChan| - 1])
  {
    FinishChanStep(c, run[n], run[n + 1], step);
  }

  /** How the error channel changes in a step: only a push adds to it. */
  lemma ErrChanStep(c: Config, s: State, s': State, step: Step)
    requires NextStep(c, s, s', step)
    ensures s'.errChan == s.errChan || (s.errChan != [] && s'.errChan == s.errChan[1..])
      || (step.LegPushes? && step.i < |s.legs| && ErrorOf(s.legs[step.i].pc).Some?
          && s'.errChan == s.errChan + [ErrorOf(s.legs[step.i].pc).value])
  {
    if step.LegPushes? {
      var p, pc' := PushShape(c, s, s', step.i);
    } else if step.CancellerMoves? {
      CancelledLegMoves(c, s, s');
    } else if step.MainTakesReady? {
      AfterReadyErr(c, s);
    } else {
      MainErrStep(c, s, s', step);
    }
  }

  lemma MainErrStep(c: Config, s: State, s': State, step: Step)
    requires NextStep(c, s, s', step) && !step.LegPushes? && !step.CancellerMoves? && !step.MainTakesReady?
    ensures s'.errChan == s.errChan || (s.errChan != [] && s'.errChan == s.errChan[1..])
  {
  }

  lemma AfterReadyErr(c: Config, s: State)
    requires ReadyToTake(c, s)
    ensures AfterReady(c, s).errChan == s.errChan
  {
  }

  /** An error about to be put is the reason of the Finish that its goroutine received, if any. */
  lemma ErrorIsReason(s: State, i: nat, f: KeySignFinish)
    requires ReasonInv(s) && i < |s.legs| && ErrorOf(s.legs[i].pc).Some? && GotFinish(s.legs[i], f)
    requires s.legs[i].pc.DialError? ==> s.legs[i].acts == []
    ensures ErrorOf(s.legs[i].pc) == Some(f.failureReason)
  {
    assert ReasonOk(s.legs[i]);
  }

  lemma ErrorsKept(c: Config, run: seq<State>, n: nat, step: Step)
    requires n + 1 < |run| && NextStep(c, run[n], run[n + 1], step) && LegsInv(c, run[n]) && ReasonInv(run[n])
    requires ErrorsPut(c, run, n)
    ensures ErrorsPut(c, run, n + 1)
  {
    var s, s' := run[n], run[n + 1];
    ErrChanStep(c, s, s', step);
    forall e | e in s'.errChan ensures WasPut(c, run, n + 1, e) {
      if e in s.errChan {
        PutStays(c, run, n, n + 1, e);
      } else {
        PushedNow(c, run, n, step.i, e);
      }
    }
  }

  lemma PushedNow(c: Config, run: seq<State>, n: nat, i: nat, e: GoString)
    requires n + 1 < |run| && LegsInv(c, run[n]) && ReasonInv(run[n]) && Pushes(c, run[n], run[n + 1], i)
    requires i < |run[n].legs| && ErrorOf(run[n].legs[i].pc) == Some(e)
    ensures WasPut(c, run, n + 1, e)
  {
    assert LegOk(c, run[n].signers, run[n].legs[i]);
    forall f | GotFinish(run[n].legs[i], f) ensures e == f.failureReason {
      ErrorIsReason(run[n], i, f);
    }
    assert PutError(c, run, n, i, e);
  }

  // ---- why the loops were left ----

  /** Every selected goroutine has put its finish on the channel, and the last is about to be counted. */
  lemma EveryoneAnswered(c: Config, s: State)
    requires LegsInv(c, s) && MapInv(c, s) && CountInv(s) && s.main.Finishing?
    requires s.finishChan != [] && s.main.finishCnt + 1 == |s.ready|
    ensures |s.finishChan| == 1
    ensures forall i: nat :: i in s.ready.Values ==> i < |s.legs| && Finish2 in s.legs[i].pushes
  {
    forall k | k in FinSet(s.legs) ensures k in InMapSet(s.legs) {
      FinisherInMap(c, s.signers, s.legs[k]);
    }
    MapCard(c, s);
    SubsetCard(FinSet(s.legs), InMapSet(s.legs));
    SubsetSameCard(FinSet(s.legs), InMapSet(s.legs));
    forall i: nat | i in s.ready.Values ensures i < |s.legs| && Finish2 in s.legs[i].pushes {
      InMapLeg(c, s, i);
      assert i in InMapSet(s.legs);
    }
  }

  lemma InMapLeg(c: Config, s: State, i: nat)
    requires MapInv(c, s) && i in s.ready.Values
    ensures i < |s.legs| && InMap(s.legs[i].pc)
  {
    var p :| p in s.ready && s.ready[p] == i;
  }

  lemma FinisherFailed(c: Config, s: State, i: nat, last: KeySignFinish) returns (f: KeySignFinish)
    requires i < |s.legs| && LegOk(c, s.signers, s.legs[i]) && FinishOk(s.legs[i]) && SuccessWaits(s)
    requires s.main.Finishing? && s.finishChan == [last] && !last.isSuccess && Finish2 in s.legs[i].pushes
    ensures FailedLeg2(s.legs[i], f)
  {
    f :| GotFinish(s.legs[i], f);
    assert f.isSuccess ==> f in s.finishChan;
  }

  lemma AllHaveFailed(c: Config, s: State)
    requires LegsInv(c, s) && MapInv(c, s) && CountInv(s) && ResultInv(s) && ReasonInv(s) && SuccessWaits(s)
    requires s.main.Finishing? && s.finishChan != [] && !s.finishChan[0].isSuccess
    requires s.main.finishCnt + 1 == |s.ready|
    ensures AllFailed(s, s.finishChan[0].failureReason) && |s.finishChan| == 1
  {
    EveryoneAnswered(c, s);
    var last := s.finishChan[0];
    assert s.finishChan == [last];
    forall i: nat | i in s.ready.Values ensures i < |s.legs| && exists f :: FailedLeg2(s.legs[i], f) {
      var f := FinisherFailed(c, s, i, last);
    }
    assert Received(s.legs, last);
    var i :| 0 <= i < |s.legs| && SecondPhase(s.legs[i].pc) && Got(KeySignFinishMsg(last)) in s.legs[i].acts;
    InMapIsInValues(c, s, i);
    assert FailedLeg2(s.legs[i], last);
  }

  /** The loops are left for an error that was put, or because everyone failed. */
  lemma LeavingIsCaused(c: Config, run: seq<State>, n: nat, step: Step)
    requires n + 1 < |run| && Inv(c, run[n]) && FailureInv(c, run, n) && NextStep(c, run[n], run[n + 1], step)
    requires !PastLoops(run[n].main) && PastLoops(run[n + 1].main)
    requires run[n + 1].result.Failure? && !run[n + 1].ctxDone
    ensures Caused(c, run, n + 1, run[n + 1].result.error)
  {
    WayOut(c, run[n], run[n + 1], step);
    if step.MainTakesError? {
      PutStays(c, run, n, n + 1, run[n].errChan[0]);
    } else {
      AllHaveFailed(c, run[n]);
      FailureCounted(c, run, n);
    }
  }

  lemma FailureCounted(c: Config, run: seq<State>, n: nat)
    requires n + 1 < |run| && |run[n].finishChan| == 1 && run[n + 1].finishChan == run[n].finishChan[1..]
    requires LastPut(run, n) == Some(run[n].finishChan[|run[n].finishChan| - 1])
    requires AllFailed(run[n], run[n].finishChan[0].failureReason)
    requires run[n + 1].legs == run[n].legs && run[n + 1].ready == run[n].ready
    ensures Caused(c, run, n + 1, run[n].finishChan[0].failureReason)
  {
    assert LastPut(run, n + 1) == LastPut(run, n);
    assert AllFailed(run[n + 1], run[n].finishChan[0].failureReason);
  }

  /** Which steps leave the loops with a failure while the context lives. */
  lemma WayOut(c: Config, s: State, s': State, step: Step)
    requires PhaseInv(s) && NextStep(c, s, s', step)
    requires !PastLoops(s.main) && PastLoops(s'.main) && s'.result.Failure? && !s'.ctxDone
    ensures step.MainTakesError? || step.MainTakesFinish?
    ensures step.MainTakesError? ==> s.errChan != [] && s'.result.error == s.errChan[0]
    ensures step.MainTakesFinish? ==>
      && s.main.Finishing? && s.finishChan != [] && !s.finishChan[0].isSuccess && s.main.finishCnt + 1 == |s.ready|
      && s'.result.error == s.finishChan[0].failureReason
      && s'.legs == s.legs && s'.ready == s.ready && s'.finishChan == s.finishChan[1..]
  {
    match step {
      case LegPushes(i) => var p, pc' := PushShape(c, s, s', i);
      case CancellerMoves => CancelMovesOn(c, s, s');
      case MainTakesReady => AfterReadyMain(c, s);
      case _ =>
    }
  }

  /** Past the loops no goroutine has anything left to do. */
  lemma GoroutinesRest(c: Config, s: State, s': State, step: Step)
    requires PhaseInv(s) && PastLoops(s.main) && NextStep(c, s, s', step)
    ensures !step.LegMoves? && !step.LegPushes?
  {
  }

  /** Past the loops nothing changes that a cause rests on. */
  lemma PastLoopsKeep(c: Config, s: State, s': State, step: Step)
    requires PhaseInv(s) && QueueInv(s) && CancelInv(c, s) && NextStep(c, s, s', step) && PastLoops(s.main)
    ensures PastLoops(s'.main) && s'.result == s.result && s'.ready == s.ready && |s'.finishChan| <= |s.finishChan|
    ensures s.ctxDone ==> s'.ctxDone
    ensures SecondsStay(s, s')
  {
    GoroutinesRest(c, s, s', step);
    if step.CancellerMoves? {
      CancelStaysSecond(c, s, s');
    }
  }

  /** Second-phase goroutines stay that, and what they did is not undone. */
  ghost predicate SecondsStay(s: State, s': State) {
    && |s'.legs| == |s.legs|
    && forall i :: 0 <= i < |s.legs| && SecondPhase(s.legs[i].pc) ==>
         SecondPhase(s'.legs[i].pc) && s.legs[i].acts <= s'.legs[i].acts
  }

  /** The leg that the canceller works on, if it has one. */
  function CancelledLeg(s: State): nat {
    match s.canceller
    case HasStream(_, i) => i
    case HasSent(_, i) => i
    case _ => if s.readyChan == [] then 0 else s.readyChan[0]
  }

  lemma CancelledLegMoves(c: Config, s: State, s': State)
    requires Cancels(c, s, s')
    ensures s'.legs == s.legs || (CancelledLeg(s) < |s.legs| == |s'.legs|
      && s'.legs == s.legs[CancelledLeg(s) := s'.legs[CancelledLeg(s)]])
    ensures SameMain(s, s') && s'.finishChan == s.finishChan && s'.result == s.result && s'.errChan == s.errChan
  {
  }

  lemma CancelledNotSecond(c: Config, s: State)
    requires QueueInv(s) && CancelInv(c, s) && CancelledLeg(s) < |s.legs|
    requires s.canceller.HasStream? || s.canceller.HasSent? || s.readyChan != []
    ensures !SecondPhase(s.legs[CancelledLeg(s)].pc)
  {
    assert s.readyChan != [] ==> s.readyChan[0] in s.readyChan;
  }

  lemma CancelStaysSecond(c: Config, s: State, s': State)
    requires QueueInv(s) && CancelInv(c, s) && Cancels(c, s, s')
    ensures SecondsStay(s, s') && SameMain(s, s') && s'.finishChan == s.finishChan && s'.result == s.result
  {
    CancelledLegMoves(c, s, s');
    if s'.legs != s.legs {
      CancelledNotSecond(c, s);
    }
  }

  lemma FailuresStay(s: State, s': State, reason: GoString)
    requires AllFailed(s, reason) && s'.ready == s.ready && SecondsStay(s, s')
    ensures AllFailed(s', reason)
  {
    forall i: nat | i in s'.ready.Values ensures i < |s'.legs| && exists f :: FailedLeg2(s'.legs[i], f) {
      var f :| FailedLeg2(s.legs[i], f);
      assert FailedLeg2(s'.legs[i], f);
    }
    var i: nat, f :|
      i in s.ready.Values && i < |s.legs| && FailedLeg2(s.legs[i], f) && f.failureReason == reason;
    assert FailedLeg2(s'.legs[i], f);
  }

  lemma CauseStays(c: Config, run: seq<State>, n: nat, step: Step, e: GoString)
    requires n + 1 < |run| && Inv(c, run[n]) && NextStep(c, run[n], run[n + 1], step) && PastLoops(run[n].main)
    requires Caused(c, run, n, e)
    ensures Caused(c, run, n + 1, e)
  {
    PastLoopsKeep(c, run[n], run[n + 1], step);
    if WasPut(c, run, n, e) {
      PutStays(c, run, n, n + 1, e);
    } else {
      FailuresStay(run[n], run[n + 1], e);
      assert LastPut(run, n + 1) == LastPut(run, n);
    }
  }

  lemma {:induction false} RunFailure(c: Config, run: seq<State>, n: nat)
    requires Run(c, run) && n < |run|
    ensures FailureInv(c, run, n)
  {
    if n == 0 {
      NothingYet(c, run);
    } else {
      RunFailure(c, run, n - 1);
      NextKeepsFailure(c, run, n - 1);
    }
  }

  lemma NextKeepsFailure(c: Config, run: seq<State>, n: nat)
    requires Run(c, run) && n + 1 < |run| && FailureInv(c, run, n)
    ensures FailureInv(c, run, n + 1)
  {
    RunInv(c, run, n);
    assert Next(c, run[n], run[n + 1]);
    var step :| NextStep(c, run[n], run[n + 1], step);
    StepKeepsFailure(c, run, n, step);
  }

  lemma StepKeepsFailure(c: Config, run: seq<State>, n: nat, step: Step)
    requires n + 1 < |run| && Inv(c, run[n]) && FailureInv(c, run, n) && NextStep(c, run[n], run[n + 1], step)
    ensures FailureInv(c, run, n + 1)
  {
    StepKeepsReasons(c, run[n], run[n + 1], step);
    ErrorsKept(c, run, n, step);
    LastKept(c, run, n, step);
    CauseKept(c, run, n, step);
  }

  lemma NothingYet(c: Config, run: seq<State>)
    requires Run(c, run)
    ensures FailureInv(c, run, 0)
  {
    assert forall i :: 0 <= i < |run[0].legs| ==> run[0].legs[i] == Leg(Begin, [], []);
  }

  lemma CauseKept(c: Config, run: seq<State>, n: nat, step: Step)
    requires n + 1 < |run| && Inv(c, run[n]) && FailureInv(c, run, n) && NextStep(c, run[n], run[n + 1], step)
    ensures PastLoops(run[n + 1].main) && run[n + 1].result.Failure? && !run[n + 1].ctxDone ==>
      Caused(c, run, n + 1, run[n + 1].result.error)
  {
    if PastLoops(run[n + 1].main) && run[n + 1].result.Failure? && !run[n + 1].ctxDone {
      if PastLoops(run[n].main) {
        PastLoopsKeep(c, run[n], run[n + 1], step);
        CauseStays(c, run, n, step, run[n].result.error);
      } else {
        LeavingIsCaused(c, run, n, step);
      }
    }
  }

  /** Why KeySign fails: with the context alive, the error it returns was put on the error channel by a
      goroutine, as the reason of the Finish it had received, if any; or every stream in the map
      received a failed Finish and it is the reason of the last that was put on the finish channel. */
  lemma {:induction false} FailureProvenance(c: Config, run: seq<State>, n: nat)
    requires Run(c, run) && n < |run| && PastLoops(run[n].main)
    requires run[n].result.Failure? && !run[n].ctxDone
    ensures var e := run[n].result.error;
      || WasPut(c, run, n, e)
      || (AllFailed(run[n], e) && LastPut(run, n).Some? && LastPut(run, n).value.failureReason == e)
  {
    RunFailure(c, run, n);
  }
}
