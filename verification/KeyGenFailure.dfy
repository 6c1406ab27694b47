/**
 * Why key generation fails. With its context alive, KeyGen returns the error of one of its goroutines or
 * the reason of a failed Finish that it read; and a Finish that fails after a Prepare gives the reason
 * for which some participant of the session raised the alarm.
 */
module KeyGenFailure {
  import opened Wrappers
  import opened TssTypes
  import opened KeyStore
  import opened Routing
  import opened Mailing
  import opened KeyGenModel
  import opened KeyGenInvariant
  import KeyGenMail

  // ---- one leg ----

  /** The participant has this failure from its own alarm or from that of another. */
  ghost predicate Knows(t: Trail, reason: GoString) {
    t.alarm == Some(reason) || exists from: nat :: Mail(from, ProcessError(reason)) in t.got
  }

  predicate FailsWith(m: TssP2PMsg, reason: GoString) {
    m.KeyGenFinishMsg? && !m.keyGenFinish.isSuccess && m.keyGenFinish.failureReason == reason
  }

  /** A failure that the participant reports after a Prepare is one that it knows of. */
  ghost predicate ReasonOk(l: Leg) {
    && l.mail <= l.trail.got
    && (l.trail.alarm.Some? ==> l.handler.Alarming? || l.handler.Finishing? || l.handler.Over?)
    && (l.handler.Alarming? ==> l.trail.alarm == Some(l.handler.reason))
    && (l.prepare.Some? && l.handler.Finishing? && !l.handler.finish.isSuccess ==>
          Knows(l.trail, l.handler.finish.failureReason))
    && (l.prepare.Some? ==>
          forall k, reason :: 0 <= k < |l.up| && FailsWith(l.up[k], reason) ==> Knows(l.trail, reason))
  }

  /** A goroutine that read a Finish in place of Ready reports its reason. */
  predicate ErrorOk(l: Leg) {
    l.pc.OfferError? || l.pc.ErrorTaken? ==>
      forall k :: 0 <= k < l.upRead && k < |l.up| && l.up[k].KeyGenFinishMsg? ==> FailsWith(l.up[k], l.pc.error)
  }

  ghost predicate LegOk(l: Leg) {
    ReasonOk(l) && ErrorOk(l)
  }

  /** What a step of the participant may do to what it knows and has sent. */
  predicate Learns(t: Trail, t': Trail) {
    t.got <= t'.got && (t.alarm.Some? ==> t'.alarm == t.alarm)
  }

  lemma KnowsStays(t: Trail, t': Trail, reason: GoString)
    requires Knows(t, reason) && Learns(t, t')
    ensures Knows(t', reason)
  {
    if t.alarm != Some(reason) {
      var from: nat :| Mail(from, ProcessError(reason)) in t.got;
      assert Mail(from, ProcessError(reason)) in t'.got;
    }
  }

  /** The participant sends nothing, or the Finish that it was about to send. */
  predicate SendsItsFinish(l: Leg, l': Leg) {
    || l'.up == l.up
    || l'.up == l.up + [KeyGenReadyMsg]
    || (l.handler.Finishing? && l'.up == l.up + [KeyGenFinishMsg(l.handler.finish)])
    || l.prepare.None?
  }

  lemma KnowingStays(l: Leg, l': Leg)
    requires ReasonOk(l) && Learns(l.trail, l'.trail) && SendsItsFinish(l, l')
    requires l'.prepare.Some? ==> l.prepare.Some? || l'.up == []
    ensures l'.prepare.Some? ==>
      forall k, reason :: 0 <= k < |l'.up| && FailsWith(l'.up[k], reason) ==> Knows(l'.trail, reason)
  {
    if l'.prepare.Some? {
      forall k, reason | 0 <= k < |l'.up| && FailsWith(l'.up[k], reason) ensures Knows(l'.trail, reason) {
        KnowsStays(l.trail, l'.trail, reason);
      }
    }
  }

  lemma GoroutineKeepsReasons(c: Config, p: KeyGenPrepare, id: PartyId, l: Leg, l': Leg)
    requires DownInv(p, l) && UpInv(c, p, id, l) && GoroutineStep(c, p, id, l, l') && LegOk(l)
    ensures LegOk(l')
  {
    assert l'.up == l.up && l'.trail == l.trail && l'.mail == l.mail && l'.prepare == l.prepare;
  }

  lemma HandlerKeepsReasons(c: Config, p: KeyGenPrepare, id: PartyId, l: Leg, l': Leg)
    requires DownInv(p, l) && UpInv(c, p, id, l) && HandlerStep(c, id, l, l') && LegOk(l)
    ensures LegOk(l')
  {
    HandlerLearns(c, p, id, l, l');
    KnowingStays(l, l');
  }

  /** What a handler's own step leaves. */
  ghost predicate Learnt(l: Leg, l': Leg) {
    && Learns(l.trail, l'.trail) && l'.trail.alarm == l.trail.alarm && SendsItsFinish(l, l')
    && (l'.prepare.Some? ==> l.prepare.Some? || l'.up == [])
    && l'.pc == l.pc && l'.upRead == l.upRead && l.up <= l'.up && l'.mail == l.mail
    && (l'.handler.Alarming? ==> l'.trail.alarm == Some(l'.handler.reason))
    && (l.trail.alarm.Some? ==> l'.handler.Alarming? || l'.handler.Finishing? || l'.handler.Over?)
    && (l'.handler.Finishing? && !l'.handler.finish.isSuccess && l'.prepare.Some? ==>
          Knows(l'.trail, l'.handler.finish.failureReason))
  }

  lemma HandlerLearns(c: Config, p: KeyGenPrepare, id: PartyId, l: Leg, l': Leg)
    requires DownInv(p, l) && UpInv(c, p, id, l) && HandlerStep(c, id, l, l') && LegOk(l)
    ensures Learnt(l, l')
  {
    if l.handler.Alarming? || l.handler.Finishing? {
      EndingLearns(c, id, l, l');
    } else if l.handler.Running? || l.handler.Sending? {
      SendingLearns(c, id, l, l');
    } else {
      PreparingLearns(c, p, id, l, l');
    }
  }

  lemma EndingLearns(c: Config, id: PartyId, l: Leg, l': Leg)
    requires HandlerStep(c, id, l, l') && ReasonOk(l) && (l.handler.Alarming? || l.handler.Finishing?)
    ensures Learnt(l, l')
  {
  }

  lemma SendingLearns(c: Config, id: PartyId, l: Leg, l': Leg)
    requires HandlerStep(c, id, l, l') && ReasonOk(l) && (l.handler.Running? || l.handler.Sending?)
    ensures Learnt(l, l')
  {
  }

  lemma PreparingLearns(c: Config, p: KeyGenPrepare, id: PartyId, l: Leg, l': Leg)
    requires UpInv(c, p, id, l) && HandlerStep(c, id, l, l') && ReasonOk(l)
    requires !(l.handler.Alarming? || l.handler.Finishing? || l.handler.Running? || l.handler.Sending?)
    ensures Learnt(l, l')
  {
  }

  /** The coordinator is done with the leg once it took a failure from it. */
  predicate StaysTaken(l: Leg, l': Leg) {
    l.pc.ErrorTaken? || l.pc.FinishTaken? ==> l'.pc == l.pc && l'.upRead == l.upRead && l.up <= l'.up
  }

  lemma UpdateKeepsReasons(l: Leg, l': Leg, m: Mail)
    requires UpdateStep(l, l', m) && LegOk(l)
    ensures LegOk(l') && StaysTaken(l, l')
  {
  }

  lemma StoreKeepsReasons(id: PartyId, l: Leg, l': Leg, st: Store, st': Store, op: StoreOp, ok: bool)
    requires StoreStep(id, l, l', st, st', op, ok) && LegOk(l)
    ensures LegOk(l') && StaysTaken(l, l')
  {
    KnowingStays(l, l');
    if l.handler.Running? && op.Abort? {
      var m :| m in l.mail && m.msg.ProcessError?
        && l' == l.(mail := l.mail - multiset{m}, handler := Finishing(KeyGenFinish(false, m.msg.errorMsg, [])));
      assert Mail(m.from, ProcessError(m.msg.errorMsg)) in l'.trail.got;
    }
  }

  lemma MailingKeepsReasons(i: nat, id: PartyId, toId: PartyId, l: Leg, l': Leg, to: Leg, to': Leg)
    requires MailStep(i, id, toId, l, l', to, to') && LegOk(l) && LegOk(to)
    ensures LegOk(l') && LegOk(to')
  {
    KnowingStays(l, l');
    KnowingStays(to, to');
    if to.prepare.Some? && to.handler.Finishing? && !to.handler.finish.isSuccess {
      KnowsStays(to.trail, to'.trail, to.handler.finish.failureReason);
    }
  }

  // ---- one session ----

  /** The coordinator took this failure from the leg: an error of its goroutine, or a failed Finish. */
  predicate Cause(l: Leg, error: GoString) {
    || l.pc == ErrorTaken(error)
    || (l.pc.FinishTaken? && l.upRead == 2 <= |l.up| && FailsWith(l.up[1], error))
  }

  ghost predicate CauseInv(ses: Session) {
    ses.main.Returned? && ses.main.result.Failure? && !ses.ctxDone ==>
      exists i :: 0 <= i < |ses.legs| && Cause(ses.legs[i], ses.main.result.error)
  }

  ghost predicate FailureInv(ses: Session) {
    (forall i :: 0 <= i < |ses.legs| ==> LegOk(ses.legs[i])) && CauseInv(ses)
  }

  lemma CauseStays(ses: Session, ses': Session)
    requires CauseInv(ses) && ses'.main == ses.main && (ses.ctxDone ==> ses'.ctxDone) && |ses'.legs| == |ses.legs|
    requires forall k :: 0 <= k < |ses.legs| ==> StaysTaken(ses.legs[k], ses'.legs[k])
    ensures CauseInv(ses')
  {
    if ses.main.Returned? && ses.main.result.Failure? && !ses'.ctxDone {
      var i :| 0 <= i < |ses.legs| && Cause(ses.legs[i], ses.main.result.error);
      assert StaysTaken(ses.legs[i], ses'.legs[i]);
      assert Cause(ses'.legs[i], ses.main.result.error);
    }
  }

  lemma OneLegKeepsFailures(ses: Session, ses': Session, i: nat, l': Leg)
    requires FailureInv(ses) && OneLeg(ses, ses', i, l') && LegOk(l') && StaysTaken(ses.legs[i], l')
    ensures FailureInv(ses')
  {
    CauseStays(ses, ses');
  }

  lemma LegStepKeepsFailures(c: Config, stores: map<PartyId, Store>, stores': map<PartyId, Store>, sid: SessionId,
                             ses: Session, ses': Session, step: Step)
    requires SessionInv(c, stores, sid, ses) && FailureInv(ses)
    requires
      || (step.GoroutineMoves? && step.sid == sid)
      || step.HandlerMoves? || step.HandlerReads? || step.HandlerStores?
    requires SessionStep(c, stores, stores', ses, ses', step)
    ensures FailureInv(ses')
  {
    var i := step.i;
    var l, l', p, id := ses.legs[i], ses'.legs[i], PrepareOf(sid, ses.req), ses.req.parties[i].id;
    assert LegInv(c, stores, sid, ses.req, i, l) && LegOk(l);
    match step {
      case GoroutineMoves(_, _) => GoroutineKeepsReasons(c, p, id, l, l'); GoroutineKeepsTaken(c, p, id, l, l');
      case HandlerMoves(_, _) => HandlerKeepsReasons(c, p, id, l, l'); HandlerLearns(c, p, id, l, l');
      case HandlerReads(_, _, m) => UpdateKeepsReasons(l, l', m);
      case HandlerStores(_, _, op, ok) => StoreKeepsReasons(id, l, l', stores[id], stores'[id], op, ok);
    }
    OneLegKeepsFailures(ses, ses', i, l');
  }

  lemma GoroutineKeepsTaken(c: Config, p: KeyGenPrepare, id: PartyId, l: Leg, l': Leg)
    requires GoroutineStep(c, p, id, l, l')
    ensures StaysTaken(l, l')
  {
  }

  lemma MailStepKeepsFailures(ses: Session, ses': Session, i: nat, j: nat, id: PartyId, toId: PartyId)
    requires FailureInv(ses) && i < |ses.legs| && j < |ses.legs| == |ses'.legs| && i != j
    requires ses' == ses.(legs := ses.legs[i := ses'.legs[i]][j := ses'.legs[j]])
    requires MailStep(i, id, toId, ses.legs[i], ses'.legs[i], ses.legs[j], ses'.legs[j])
    ensures FailureInv(ses')
  {
    MailingKeepsReasons(i, id, toId, ses.legs[i], ses'.legs[i], ses.legs[j], ses'.legs[j]);
    CauseStays(ses, ses');
  }

  lemma TakeKeepsReasons(ses: Session, ses': Session, i: nat)
    requires FailureInv(ses) && (TakeReady(ses, ses', i) || TakeError(ses, ses', i) || TakeFinish(ses, ses', i))
    ensures forall k :: 0 <= k < |ses'.legs| ==> LegOk(ses'.legs[k])
  {
    forall k | 0 <= k < |ses'.legs| ensures LegOk(ses'.legs[k]) {
      TakeKeepsLeg(ses, ses', i, k);
    }
  }

  lemma TakeKeepsLeg(ses: Session, ses': Session, i: nat, k: nat)
    requires TakeReady(ses, ses', i) || TakeError(ses, ses', i) || TakeFinish(ses, ses', i)
    requires k < |ses.legs| && LegOk(ses.legs[k])
    ensures |ses'.legs| == |ses.legs| && LegOk(ses'.legs[k])
  {
    var l, l' := ses.legs[k], ses'.legs[k];
    assert l' == l.(pc := l'.pc) && (l'.pc.ErrorTaken? || l'.pc.OfferError? ==> l.pc.ErrorTaken? || l.pc.OfferError?);
    assert l'.pc.ErrorTaken? || l'.pc.OfferError? ==> l'.pc.error == l.pc.error;
  }

  lemma TakingIsCause(c: Config, stores: map<PartyId, Store>, sid: SessionId, ses: Session, ses': Session, i: nat)
    requires SessionInv(c, stores, sid, ses)
    requires TakeReady(ses, ses', i) || TakeError(ses, ses', i) || TakeFinish(ses, ses', i)
    ensures CauseInv(ses')
  {
    assert LegInv(c, stores, sid, ses.req, i, ses.legs[i]);
    TakenIsCause(PrepareOf(sid, ses.req), ses, ses', i);
  }

  lemma TakenIsCause(p: KeyGenPrepare, ses: Session, ses': Session, i: nat)
    requires i < |ses.legs| && DownInv(p, ses.legs[i])
    requires TakeReady(ses, ses', i) || TakeError(ses, ses', i) || TakeFinish(ses, ses', i)
    ensures CauseInv(ses')
  {
    if ses'.main.Returned? && ses'.main.result.Failure? {
      assert ses'.legs[i] == ses.legs[i].(pc := ses'.legs[i].pc);
      assert Cause(ses'.legs[i], ses'.main.result.error);
    }
  }

  lemma SessionStepKeepsFailures(c: Config, stores: map<PartyId, Store>, stores': map<PartyId, Store>, sid: SessionId,
                                 ses: Session, ses': Session, step: Step)
    requires SessionInv(c, stores, sid, ses) && FailureInv(ses) && !step.StartSession? && step.sid == sid
    requires SessionStep(c, stores, stores', ses, ses', step)
    ensures FailureInv(ses')
  {
    match step {
      case ContextDone(_) =>
      case MainGivesUp(_) =>
      case MainTakesReady(_, i) => TakeKeepsReasons(ses, ses', i); TakingIsCause(c, stores, sid, ses, ses', i);
      case MainTakesError(_, i) => TakeKeepsReasons(ses, ses', i); TakingIsCause(c, stores, sid, ses, ses', i);
      case MainTakesFinish(_, i) => TakeKeepsReasons(ses, ses', i); TakingIsCause(c, stores, sid, ses, ses', i);
      case HandlerMails(_, i, j) =>
        MailStepKeepsFailures(ses, ses', i, j, ses.req.parties[i].id, ses.req.parties[j].id);
      case _ => LegStepKeepsFailures(c, stores, stores', sid, ses, ses', step);
    }
  }

  // ---- every run ----

  ghost predicate AllFailures(s: State) {
    forall sid :: sid in s.sessions ==> FailureInv(s.sessions[sid])
  }

  lemma NextKeepsFailures(c: Config, s: State, s': State)
    requires Inv(c, s) && AllFailures(s) && Next(c, s, s')
    ensures AllFailures(s')
  {
    var step :| NextStep(c, s, s', step);
    if step.StartSession? {
      assert forall i :: 0 <= i < |s'.sessions[step.sid].legs| ==> s'.sessions[step.sid].legs[i] == NewLeg();
    } else {
      var sid := step.sid;
      SessionStepKeepsFailures(c, s.stores, s'.stores, sid, s.sessions[sid], s'.sessions[sid], step);
    }
  }

  ghost predicate InvAndFailures(c: Config, s: State) {
    Inv(c, s) && AllFailures(s)
  }

  lemma NextKeepsBoth(c: Config, s: State, s': State)
    requires InvAndFailures(c, s) && Next(c, s, s')
    ensures InvAndFailures(c, s')
  {
    NextKeepsInv(c, s, s');
    NextKeepsFailures(c, s, s');
  }

  lemma {:induction false} RunFailures(c: Config, run: seq<State>, n: nat)
    requires Run(c, run) && n < |run|
    ensures InvAndFailures(c, run[n])
  {
    if n > 0 {
      RunFailures(c, run, n - 1);
      assert Next(c, run[n - 1], run[n - 1 + 1]);
      NextKeepsBoth(c, run[n - 1], run[n]);
    }
  }

  lemma ReachableFailures(c: Config, run: seq<State>, n: nat, sid: SessionId)
    requires Run(c, run) && n < |run| && sid in run[n].sessions
    ensures FailureInv(run[n].sessions[sid])
  {
    RunFailures(c, run, n);
  }

  // ---- the theorems ----

  /** Why KeyGen fails: with the context alive, the error that it returns is that of a goroutine which
      read no Finish, or the reason of a failed Finish that one read. */
  lemma {:induction false} FailureProvenance(c: Config, run: seq<State>, n: nat, sid: SessionId)
    requires Run(c, run) && n < |run| && sid in run[n].sessions && !run[n].sessions[sid].ctxDone
    requires var main := run[n].sessions[sid].main; main.Returned? && main.result.Failure?
    ensures var ses := run[n].sessions[sid];
      exists i :: 0 <= i < |ses.legs| && FailedFor(ses.legs[i], ses.main.result.error)
  {
    ReachableFailures(c, run, n, sid);
    var ses := run[n].sessions[sid];
    var i :| 0 <= i < |ses.legs| && Cause(ses.legs[i], ses.main.result.error);
    ReadBounded(c, run, n, sid, i);
    CauseIsFailure(ses.legs[i], ses.main.result.error);
  }

  /** The goroutine of the leg reported this error without having read a Finish, or read a failed Finish
      with this reason. */
  ghost predicate FailedFor(l: Leg, error: GoString) {
    || (l.pc == ErrorTaken(error) && forall k :: 0 <= k < l.upRead && k < |l.up| ==> !l.up[k].KeyGenFinishMsg?)
    || (exists k :: 0 <= k < l.upRead && k < |l.up| && FailsWith(l.up[k], error))
  }

  lemma ReadBounded(c: Config, run: seq<State>, n: nat, sid: SessionId, i: nat)
    requires Run(c, run) && n < |run| && sid in run[n].sessions && i < |run[n].sessions[sid].legs|
    ensures var l := run[n].sessions[sid].legs[i]; l.upRead <= |l.up|
  {
    RunInv(c, run, n);
    assert LegInv(c, run[n].stores, sid, run[n].sessions[sid].req, i, run[n].sessions[sid].legs[i]);
  }

  lemma CauseIsFailure(l: Leg, error: GoString)
    requires ErrorOk(l) && Cause(l, error) && l.upRead <= |l.up|
    ensures FailedFor(l, error)
  {
    if l.pc.FinishTaken? {
      assert FailsWith(l.up[1], error);
    }
  }

  /** A failed Finish that a participant sent after a Prepare gives the reason for which it, or another
      participant that told it so, raised the alarm. */
  lemma {:induction false} FailureHasAlarm(c: Config, run: seq<State>, n: nat, sid: SessionId, i: nat, k: nat,
                                           reason: GoString)
    requires Run(c, run) && n < |run| && sid in run[n].sessions && i < |run[n].sessions[sid].legs|
    requires var l := run[n].sessions[sid].legs[i];
      l.prepare.Some? && k < |l.up| && FailsWith(l.up[k], reason)
    ensures var ses := run[n].sessions[sid];
      exists j :: 0 <= j < |ses.legs| && ses.legs[j].trail.alarm == Some(reason)
                  && (j != i ==> Mail(j, ProcessError(reason)) in ses.legs[i].trail.got)
  {
    ReachableFailures(c, run, n, sid);
    var ses := run[n].sessions[sid];
    var l := ses.legs[i];
    assert LegOk(l);
    assert Knows(l.trail, reason);
    if l.trail.alarm != Some(reason) {
      var j: nat :| Mail(j, ProcessError(reason)) in l.trail.got;
      KeyGenMail.Integrity(c, run, n, sid, i, Mail(j, ProcessError(reason)));
      assert ses.legs[j].trail.alarm == Some(reason);
    }
  }
}
