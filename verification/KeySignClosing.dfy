/**
 * Which streams the key signing coordinator leaves open. The deferred closing of the chosen streams
 * is set up after the selection only, and it closes the streams in the ready map only.
 */
module KeySignClosing {
  import opened Wrappers
  import opened TssTypes
  import opened SeqLemmas
  import opened KeySignModel
  import opened KeySignInvariant
  import opened KeySignTheorems
  import opened KeySignStreams

  // ---- records only grow ----

  /** Nothing that was done on a stream, or put on a channel, is undone. */
  predicate Extends(l: Leg, l': Leg) {
    l.acts <= l'.acts && l.pushes <= l'.pushes
  }

  ghost predicate AllExtend(legs: seq<Leg>, legs': seq<Leg>) {
    |legs'| == |legs| && forall k :: 0 <= k < |legs| ==> Extends(legs[k], legs'[k])
  }

  lemma OneExtends(legs: seq<Leg>, i: nat, l': Leg)
    requires i < |legs| && Extends(legs[i], l')
    ensures AllExtend(legs, legs[i := l'])
  {
  }

  lemma ErrorsStay(legs: seq<Leg>, legs': seq<Leg>)
    requires AllExtend(legs, legs') && ErrSet(legs) != {}
    ensures ErrSet(legs') != {}
  {
    var i :| i in ErrSet(legs);
    assert Extends(legs[i], legs'[i]);
    assert i in ErrSet(legs');
  }

  // ---- what has been closed ----

  predicate PastStreams(m: Main) {
    m.ClosingFinishChan? || m.ClosingChans? || m.Returned?
  }

  /** Past their turn the streams in the ready map are closed, if the selection had passed; if it had
      not, the loop was left for an error or for the context. */
  ghost predicate ClosingInv(s: State) {
    && (s.main.ClosingStreams? ==> forall i: nat :: i in s.ready.Values && i < |s.legs| && i !in s.main.open ==>
          Closed in s.legs[i].acts)
    && (PastStreams(s.main) && s.selected ==> forall i: nat :: i in s.ready.Values && i < |s.legs| ==>
          Closed in s.legs[i].acts)
    && ((s.main.ClosingChans? || s.main.Returned?) && !s.selected && !s.ctxDone ==> ErrSet(s.legs) != {})
  }

  /** A step that leaves main and the ready map alone. */
  lemma SideStepKeepsClosing(s: State, s': State)
    requires ClosingInv(s) && AllExtend(s.legs, s'.legs)
    requires s'.main == s.main && s'.ready == s.ready && s'.selected == s.selected && (s.ctxDone ==> s'.ctxDone)
    ensures ClosingInv(s')
  {
    forall i: nat | i < |s.legs| && Closed in s.legs[i].acts ensures Closed in s'.legs[i].acts {
      assert Extends(s.legs[i], s'.legs[i]);
    }
    if ErrSet(s.legs) != {} {
      ErrorsStay(s.legs, s'.legs);
    }
  }

  lemma MoveExtends(c: Config, signers: seq<PartyID>, ctxDone: bool, l: Leg, l': Leg, net: Net)
    requires Moves(c, signers, ctxDone, l, l', net)
    ensures Extends(l, l')
  {
  }

  /** What a side step keeps. */
  predicate SameMain(s: State, s': State) {
    s'.main == s.main && s'.ready == s.ready && s'.selected == s.selected && s'.ctxDone == s.ctxDone
  }

  lemma PushExtends(c: Config, s: State, s': State, i: nat)
    requires Pushes(c, s, s', i)
    ensures i < |s.legs| == |s'.legs| && s'.legs == s.legs[i := s'.legs[i]] && Extends(s.legs[i], s'.legs[i])
    ensures SameMain(s, s')
  {
    assert exists p, pc :: s'.legs == s.legs[i := Pushed(s.legs[i], p, pc)];
  }

  lemma CancelExtends(c: Config, s: State, s': State) returns (i: nat)
    requires Cancels(c, s, s')
    ensures s'.legs == s.legs ||
      (i < |s.legs| == |s'.legs| && s'.legs == s.legs[i := s'.legs[i]] && Extends(s.legs[i], s'.legs[i]))
    ensures SameMain(s, s')
  {
    match s.canceller {
      case Draining(_) => i := if s.readyChan != [] then s.readyChan[0] else 0;
      case HasStream(_, j) => i := j;
      case HasSent(_, j) => i := j;
    }
  }

  lemma LeavingKeepsClosing(s: State, s': State, errChan: seq<GoString>)
    requires PhaseInv(s) && LeavesWith(s, s', errChan)
    requires s.main.Selecting? ==> s.ctxDone || ErrSet(s.legs) != {}
    ensures ClosingInv(s')
  {
  }

  lemma ClosesKeepsClosing(s: State, s': State, i: nat)
    requires ClosingInv(s) && PhaseInv(s) && Closes(s, s', i)
    ensures ClosingInv(s')
  {
    if s.main.ClosingStreams? && s.main.open != {} {
      forall k: nat | k in s'.ready.Values && k < |s'.legs| && k !in s'.main.open ensures Closed in s'.legs[k].acts {
        if k == i {
          assert s'.legs[k].acts[|s.legs[k].acts|] == Closed;
        }
      }
    } else if s.main.ClosingChans? {
      assert s'.legs == s.legs;
    }
  }

  /** Before the closing starts there is nothing to keep. */
  lemma NotClosingYet(s: State)
    requires !PastStreams(s.main) && (s.main.ClosingStreams? ==> s.main.open == s.ready.Values)
    ensures ClosingInv(s)
  {
  }

  lemma TakingKeepsClosing(c: Config, s: State, s': State)
    requires DialsDone(s, s') || TakesReady(c, s, s') || FinishersDone(s, s') || TakesFinish(s, s')
    ensures ClosingInv(s')
  {
    if s.main.Selecting? {
      AfterReadyMain(c, s);
    } else if s.main.Finishing? {
      AfterFinishMain(s);
    }
    NotClosingYet(s');
  }

  lemma AfterReadyMain(c: Config, s: State)
    requires ReadyToTake(c, s)
    ensures AfterReady(c, s).main.Selecting? || AfterReady(c, s).main.WaitFinishers?
  {
  }

  lemma AfterFinishMain(s: State)
    requires s.main.Finishing? && s.finishChan != []
    ensures AfterFinish(s).main.Finishing? || AfterFinish(s).main == ClosingStreams(AfterFinish(s).ready.Values)
  {
  }

  lemma MainStepKeepsClosing(c: Config, s: State, s': State, step: Step)
    requires ClosingInv(s) && PhaseInv(s) && CountInv(s) && NextStep(c, s, s', step)
    requires !step.ContextDone? && !step.LegMoves? && !step.LegPushes? && !step.CancellerMoves?
    ensures ClosingInv(s')
  {
    match step {
      case MainTakesError =>
        assert s.main.Selecting? ==> |ErrSet(s.legs)| > 0;
        LeavingKeepsClosing(s, s', s.errChan[1..]);
      case MainGivesUp => LeavingKeepsClosing(s, s', s.errChan);
      case MainSeesClosed => LeavingKeepsClosing(s, s', s.errChan);
      case MainCloses(i) => ClosesKeepsClosing(s, s', i);
      case _ => TakingKeepsClosing(c, s, s');
    }
  }

  lemma PushKeepsClosing(c: Config, s: State, s': State, i: nat)
    requires ClosingInv(s) && Pushes(c, s, s', i)
    ensures ClosingInv(s')
  {
    PushExtends(c, s, s', i);
    OneExtends(s.legs, i, s'.legs[i]);
    SideStepKeepsClosing(s, s');
  }

  lemma CancelKeepsClosing(c: Config, s: State, s': State)
    requires ClosingInv(s) && Cancels(c, s, s')
    ensures ClosingInv(s')
  {
    var i := CancelExtends(c, s, s');
    if s'.legs != s.legs {
      OneExtends(s.legs, i, s'.legs[i]);
    }
    SideStepKeepsClosing(s, s');
  }

  lemma StepKeepsClosing(c: Config, s: State, s': State, step: Step)
    requires ClosingInv(s) && PhaseInv(s) && CountInv(s) && NextStep(c, s, s', step)
    ensures ClosingInv(s')
  {
    match step {
      case ContextDone => SideStepKeepsClosing(s, s');
      case LegMoves(i, net) =>
        MoveExtends(c, s.signers, s.ctxDone, s.legs[i], s'.legs[i], net);
        OneExtends(s.legs, i, s'.legs[i]);
        SideStepKeepsClosing(s, s');
      case LegPushes(i) => PushKeepsClosing(c, s, s', i);
      case CancellerMoves => CancelKeepsClosing(c, s, s');
      case _ => MainStepKeepsClosing(c, s, s', step);
    }
  }

  lemma {:induction false} RunClosing(c: Config, run: seq<State>, k: nat)
    requires Run(c, run) && k < |run|
    ensures ClosingInv(run[k])
  {
    if k > 0 {
      RunClosing(c, run, k - 1);
      RunInv(c, run, k - 1);
      assert Next(c, run[k - 1], run[k - 1 + 1]);
      var step :| NextStep(c, run[k - 1], run[k], step);
      StepKeepsClosing(c, run[k - 1], run[k], step);
    }
  }

  lemma ReachableClosing(c: Config, s: State)
    requires Reachable(c, s)
    ensures ClosingInv(s)
  {
    var run :| Run(c, run) && run[|run| - 1] == s;
    RunClosing(c, run, |run| - 1);
  }

  // ---- which streams are left open ----

  /** The stream was dialled, for something was done on it, and was never closed. */
  predicate LeftOpen(l: Leg) {
    l.acts != [] && Closed !in l.acts
  }

  ghost predicate AllClosed(s: State) {
    forall i :: 0 <= i < |s.legs| ==> !LeftOpen(s.legs[i])
  }

  predicate AtRest(canceller: Canceller) {
    canceller.NotStarted? || canceller.Ended?
  }

  /** Where a goroutine leaves its stream open, once its phase is over and main is past the closing. */
  lemma PlaceTells(c: Config, signers: seq<PartyID>, l: Leg)
    requires LegOk(c, signers, l) && FirstPhaseOver(l.pc) && !l.pc.TakenToCancel? && !l.pc.CancelSent?
    requires SecondPhase(l.pc) ==> Closed in l.acts
    ensures LeftOpen(l) <==> l.pc.Abandoned? || l.pc.Queued? || l.pc.Overwritten? || l.pc.Chosen?
  {
    if l.pc.Gone? && l.acts != [] {
      assert l.acts[|l.acts| - 1] == Closed;
    }
    if l.pc.Cancelled? {
      assert l.acts[3] == Closed;
    }
  }

  /** When KeySign has returned and its canceller rests, a dialled stream is still open exactly when
      its party was ready and it was given up for the context, never taken, pushed out of the map by
      another stream of its party, or in the map of a selection that did not pass. */
  lemma LeftOpenIff(c: Config, s: State, i: nat)
    requires Reachable(c, s) && s.main.Returned? && AtRest(s.canceller) && i < |s.legs|
    ensures var pc := s.legs[i].pc;
      LeftOpen(s.legs[i]) <==> pc.Abandoned? || pc.Queued? || pc.Overwritten? || (!s.selected && pc.Chosen?)
  {
    ReachableClosing(c, s);
    ReachableInv(c, s);
    InMapIsInValues(c, s, i);
    CancellerAtRest(c, s, i);
    PlaceTells(c, s.signers, s.legs[i]);
  }

  lemma ReadyOutside(c: Config, signers: seq<PartyID>, l: Leg)
    requires LegOk(c, signers, l) && LegCtx(false, l) && FirstPhaseOver(l.pc) && !SecondPhase(l.pc) && !InCancel(l.pc)
    ensures !l.pc.Abandoned?
    ensures Ready1 in l.pushes <==> l.pc.Queued? || l.pc.Overwritten? || l.pc.Chosen?
  {
  }

  lemma NoneInCancel(c: Config, s: State)
    requires CancelInv(c, s) && PhaseInv(s) && !s.selected
    ensures forall i :: 0 <= i < |s.legs| ==> !InCancel(s.legs[i].pc)
  {
    assert forall i :: 0 <= i < |s.legs| && InCancel(s.legs[i].pc) ==> i in CancelSet(s.legs);
  }

  /** With the context alive, everything is closed in the end exactly when, if the selection passed, no
      stream was pushed out of the map, and if it did not, nobody had become ready. */
  lemma AllClosedIff(c: Config, s: State)
    requires Reachable(c, s) && s.main.Returned? && !s.ctxDone && AtRest(s.canceller)
    ensures AllClosed(s) <==>
      if s.selected then forall i :: 0 <= i < |s.legs| ==> !s.legs[i].pc.Overwritten?
      else forall i :: 0 <= i < |s.legs| ==> Ready1 !in s.legs[i].pushes
  {
    ReachableInv(c, s);
    forall i: nat | i < |s.legs|
      ensures s.selected ==> (LeftOpen(s.legs[i]) <==> s.legs[i].pc.Overwritten?)
      ensures !s.selected ==> (LeftOpen(s.legs[i]) <==> Ready1 in s.legs[i].pushes)
    {
      LeftOpenIff(c, s, i);
      if s.selected {
        NothingQueued(c, s);
        NoneAbandoned(c, s, i);
      } else {
        NoneInCancel(c, s);
        ReadyOutside(c, s.signers, s.legs[i]);
      }
    }
  }

  lemma NoneAbandoned(c: Config, s: State, i: nat)
    requires LegsInv(c, s) && QueueInv(s) && s.readyChan == [] && !s.ctxDone && i < |s.legs|
    ensures !s.legs[i].pc.Abandoned? && !s.legs[i].pc.Queued?
  {
    assert LegCtx(s.ctxDone, s.legs[i]);
  }

  /** For distinct ids, a selection that passed closes everything. */
  lemma SelectedClosesAll(c: Config, s: State)
    requires Reachable(c, s) && s.main.Returned? && !s.ctxDone && AtRest(s.canceller)
    requires s.selected && Distinct(Ids(c.parties))
    ensures AllClosed(s)
  {
    AllClosedIff(c, s);
    ReachableInv(c, s);
    forall i: nat | i < |s.legs| ensures !s.legs[i].pc.Overwritten? {
      if s.legs[i].pc.Overwritten? {
        OverwrittenMeansTwice(c, s, i);
      }
    }
  }

  // ---- a run that leaves a stream open ----

  function FailedLeg(): Leg {
    Leg(Gone, [], [Error1])
  }

  /** The first party is ready and queued; the next `k - 1` could not be dialled. */
  function OneReady(c: Config, k: nat): State
    requires k > 0
  {
    NewState(c).(
      legs := seq(|c.parties|, i => if i == 0 then QueuedLeg(c) else if i < k then FailedLeg() else Leg(Begin, [], [])),
      readyChan := [0],
      errChan := seq(k - 1, i => []))
  }

  lemma {:induction false} OneReadyReachable(c: Config, k: nat)
    requires 0 < k <= |c.parties|
    ensures Reachable(c, OneReady(c, k))
  {
    if k == 1 {
      AllReadyReachable(c, 1);
      assert AllReady(c, 1).legs == OneReady(c, 1).legs && UpTo(1) == [0];
      assert AllReady(c, 1) == OneReady(c, 1);
    } else {
      OneReadyReachable(c, k - 1);
      OneMoreFails(c, k - 1);
    }
  }

  lemma OneMoreFails(c: Config, k: nat)
    requires 0 < k < |c.parties| && Reachable(c, OneReady(c, k))
    ensures Reachable(c, OneReady(c, k + 1))
  {
    var s := OneReady(c, k);
    s := MoveReaches(c, s, k, Leg(DialError([]), [], []), Fails);
    var s' := s.(errChan := s.errChan + [[]], legs := s.legs[k := FailedLeg()]);
    assert s.legs[k].pushes + [Error1] == [Error1];
    StepReaches(c, s, s', LegPushes(k));
    assert s'.errChan == OneReady(c, k + 1).errChan && s'.legs == OneReady(c, k + 1).legs;
  }

  /** With two parties or more, one may be ready and another's error taken first: then KeySign returns
      with the ready party's stream open. */
  lemma LeavesReadyOpen(c: Config) returns (s: State)
    requires |c.parties| >= 2
    ensures Reachable(c, s) && s.main.Returned? && !s.ctxDone && AtRest(s.canceller) && !s.selected
    ensures |s.legs| > 0 && s.legs[0].acts == [Sent(KeySignPrepareMsg(c.prepare)), Got(KeySignReadyMsg)]
    ensures !AllClosed(s)
  {
    OneReadyReachable(c, |c.parties|);
    var s0 := OneReady(c, |c.parties|);
    assert forall i :: 0 <= i < |s0.legs| ==> s0.legs[i] == if i == 0 then QueuedLeg(c) else FailedLeg();
    var s1 := s0.(main := Selecting);
    StepReaches(c, s0, s1, MainDialsDone);
    var s2 := s1.(main := ClosingChans, result := Failure(s1.errChan[0]), errChan := s1.errChan[1..]);
    StepReaches(c, s1, s2, MainTakesError);
    s := s2.(main := Returned, chansClosed := true);
    StepReaches(c, s2, s, MainCloses(0));
    assert LeftOpen(s.legs[0]);
  }

  /** With the context alive, KeySign is sure to close every stream that it dialled exactly when the
      key has one party at most. */
  lemma ClosesEverythingIff(c: Config)
    ensures (forall s :: Reachable(c, s) && s.main.Returned? && !s.ctxDone && AtRest(s.canceller) ==> AllClosed(s))
       <==> |c.parties| <= 1
  {
    if |c.parties| <= 1 {
      forall s | Reachable(c, s) && s.main.Returned? && !s.ctxDone && AtRest(s.canceller) ensures AllClosed(s) {
        if s.selected {
          SelectedClosesAll(c, s);
        } else {
          OnlyAnError(c, s);
          AllClosedIff(c, s);
        }
      }
    } else {
      var s := LeavesReadyOpen(c);
    }
  }

  lemma OnlyAnError(c: Config, s: State)
    requires Reachable(c, s) && s.main.Returned? && !s.ctxDone && !s.selected && |c.parties| <= 1
    ensures forall i :: 0 <= i < |s.legs| ==> Ready1 !in s.legs[i].pushes
  {
    ReachableClosing(c, s);
    ReachableInv(c, s);
    ErredNotReady(c, s);
  }

  lemma ErredNotReady(c: Config, s: State)
    requires LegsInv(c, s) && PhaseInv(s) && !s.selected && |c.parties| <= 1 && ErrSet(s.legs) != {}
    ensures forall i :: 0 <= i < |s.legs| ==> Ready1 !in s.legs[i].pushes
  {
    var i :| i in ErrSet(s.legs);
    ErrorBeforeReady(c, s.signers, s.legs[i]);
  }

  lemma ErrorBeforeReady(c: Config, signers: seq<PartyID>, l: Leg)
    requires LegOk(c, signers, l) && PushedError(l) && !SecondPhase(l.pc)
    ensures Ready1 !in l.pushes
  {
  }
}
