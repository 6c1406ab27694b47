/**
 * The signing sessions that succeed. With the stores as they stand, a session can return a signature
 * exactly when enough distinct listed parties hold the named key session ready.
 */
module KeySignPossible {
  import opened Wrappers
  import opened TssTypes
  import opened SeqLemmas
  import opened KeyStore
  import opened Mailing
  import opened KeySignSystem
  import opened KeySignSystemInvariant
  import opened KeySignSystemTheorems
  import M = KeySignModel
  import MI = KeySignInvariant
  import MT = KeySignTheorems

  ghost predicate Reachable(c: SignConfig, s: Sys) {
    exists run :: Run(c, run) && run[|run| - 1] == s
  }

  lemma StepReaches(c: SignConfig, s: Sys, s': Sys, step: Step)
    requires Reachable(c, s) && NextStep(c, s, s', step)
    ensures Reachable(c, s')
  {
    var run :| Run(c, run) && run[|run| - 1] == s;
    var longer := run + [s'];
    assert Next(c, s, s');
    forall k | 0 <= k < |longer| - 1 ensures Next(c, longer[k], longer[k + 1]) {
      if k < |run| - 1 {
        assert Next(c, run[k], run[k + 1]);
      }
    }
    assert Run(c, longer) && longer[|longer| - 1] == s';
  }

  lemma ReachableSession(c: SignConfig, s: Sys)
    requires Reachable(c, s)
    ensures Inv(c, s) && M.Reachable(c.co, s.co)
  {
    var run :| Run(c, run) && run[|run| - 1] == s;
    RunInvariant(c, run, |run| - 1);
    CoordinatorReachable(c, run, |run| - 1);
  }

  lemma ReachableCoordinator(c: SignConfig, s: Sys)
    requires Reachable(c, s)
    ensures M.Reachable(c.co, s.co)
  {
    var run :| Run(c, run) && run[|run| - 1] == s;
    CoordinatorReachable(c, run, |run| - 1);
  }

  function NamedEntry(c: SignConfig): EntryId {
    EntryOfPrepare(c.co.prepare)
  }

  // ---- steps of one leg and its end ----

  function WithLeg(s: Sys, i: nat, l: M.Leg, e: End): Sys
    requires i < |s.co.legs| == |s.ends|
  {
    s.(co := s.co.(legs := s.co.legs[i := l]), ends := s.ends[i := e])
  }

  lemma WithLegTwice(s: Sys, i: nat, l: M.Leg, e: End, l': M.Leg, e': End)
    requires i < |s.co.legs| == |s.ends|
    ensures WithLeg(WithLeg(s, i, l, e), i, l', e') == WithLeg(s, i, l', e')
  {
    assert s.co.legs[i := l][i := l'] == s.co.legs[i := l'];
    assert s.ends[i := e][i := e'] == s.ends[i := e'];
  }

  /** From `s`, leg `i` and its end may come to this. */
  ghost predicate CanBe(c: SignConfig, s: Sys, i: nat, l: M.Leg, e: End) {
    i < |s.co.legs| == |s.ends| == |c.co.parties| && Reachable(c, WithLeg(s, i, l, e))
  }

  lemma LegIs(c: SignConfig, s: Sys, i: nat)
    requires Reachable(c, s) && i < |s.co.legs| == |s.ends| == |c.co.parties|
    ensures CanBe(c, s, i, s.co.legs[i], s.ends[i])
  {
    assert s.co.legs[i := s.co.legs[i]] == s.co.legs && s.ends[i := s.ends[i]] == s.ends;
    assert WithLeg(s, i, s.co.legs[i], s.ends[i]) == s;
  }

  /** The leg after a move of its goroutine, and its end. */
  lemma MoveTo(c: SignConfig, s: Sys, i: nat, l: M.Leg, e: End, net: M.Net, toLeg: M.Leg, toEnd: End)
    returns (l': M.Leg, e': End)
    requires CanBe(c, s, i, l, e) && M.Moves(c.co, s.co.signers, s.co.ctxDone, l, toLeg, net)
    requires NetEffect(c, c.co.parties[i].id, s.co.signers, s.co.ctxDone, l.pc, net, e, toEnd)
    ensures l' == toLeg && e' == toEnd && CanBe(c, s, i, l', e')
  {
    l', e' := toLeg, toEnd;
    WithLegTwice(s, i, l, e, l', e');
    StepReaches(c, WithLeg(s, i, l, e), WithLeg(s, i, l', e'), Coordinator(M.LegMoves(i, net)));
  }

  /** The end after a move of its handler. */
  lemma HandleTo(c: SignConfig, s: Sys, i: nat, l: M.Leg, e: End, toEnd: End) returns (e': End)
    requires CanBe(c, s, i, l, e) && c.co.parties[i].id in s.stores
    requires SignHandlerStep(c, c.co.parties[i].id, s.stores[c.co.parties[i].id], e, toEnd)
    ensures e' == toEnd && CanBe(c, s, i, l, e')
  {
    e' := toEnd;
    WithLegTwice(s, i, l, e, l, e');
    StepReaches(c, WithLeg(s, i, l, e), WithLeg(s, i, l, e'), HandlerMoves(i));
  }

  // ---- a party becomes ready ----

  /** The end of a participant that has sent Ready, with this key data. */
  function ReadyEnd(c: SignConfig, id: PartyId, d: KeyData): End {
    End(HearStart, [KeySignPrepareMsg(c.co.prepare)], 1, [KeySignReadyMsg], 1,
        [KeySignPrepareMsg(c.co.prepare), KeySignReadyMsg],
        Some(c.co.prepare), Some(d), id !in c.dev, None, None, multiset{}, NO_TRAIL)
  }

  function ReadyLeg(c: SignConfig, pc: M.Goroutine): M.Leg {
    M.Leg(pc, [M.Sent(KeySignPrepareMsg(c.co.prepare)), M.Got(KeySignReadyMsg)], [])
  }

  /** The participant has heard Prepare and is about to look the key up. */
  function HeardEnd(c: SignConfig): End {
    NewEnd().(handler := Lookup, down := [KeySignPrepareMsg(c.co.prepare)], downRead := 1,
              log := [KeySignPrepareMsg(c.co.prepare)], prepare := Some(c.co.prepare))
  }

  function AwaitingLeg(c: SignConfig): M.Leg {
    M.Leg(M.AwaitReady, [M.Sent(KeySignPrepareMsg(c.co.prepare))], [])
  }

  /** Prepare is on its way. */
  function ToldEnd(c: SignConfig): End {
    NewEnd().(handler := HearPrepare, down := [KeySignPrepareMsg(c.co.prepare)],
              log := [KeySignPrepareMsg(c.co.prepare)])
  }

  lemma LegDials(c: SignConfig, s: Sys, i: nat)
    requires Reachable(c, s) && i < |s.co.legs| == |s.ends| == |c.co.parties|
    requires s.co.legs[i] == M.Leg(M.Begin, [], []) && s.ends[i] == NewEnd() && !s.co.ctxDone
    requires c.co.parties[i].id in c.nodes
    ensures CanBe(c, s, i, M.Leg(M.SendPrepare, [], []), NewEnd().(handler := HearPrepare))
  {
    LegIs(c, s, i);
    var l, e := MoveTo(c, s, i, s.co.legs[i], s.ends[i], M.Quiet, M.Leg(M.SendPrepare, [], []),
                       NewEnd().(handler := HearPrepare));
  }

  lemma LegTells(c: SignConfig, s: Sys, i: nat)
    requires CanBe(c, s, i, M.Leg(M.SendPrepare, [], []), NewEnd().(handler := HearPrepare))
    ensures CanBe(c, s, i, AwaitingLeg(c), ToldEnd(c))
  {
    var e := NewEnd().(handler := HearPrepare);
    assert SignDown(e, KeySignPrepareMsg(c.co.prepare)) == ToldEnd(c);
    var l := M.Leg(M.SendPrepare, [], []);
    assert M.Did(l, M.Sent(KeySignPrepareMsg(c.co.prepare))).(pc := M.AwaitReady) == AwaitingLeg(c);
    l, e := MoveTo(c, s, i, l, e, M.Quiet, AwaitingLeg(c), ToldEnd(c));
  }

  lemma LegPrepares(c: SignConfig, s: Sys, i: nat)
    requires Reachable(c, s) && i < |s.co.legs| == |s.ends| == |c.co.parties|
    requires s.co.legs[i] == M.Leg(M.Begin, [], []) && s.ends[i] == NewEnd() && !s.co.ctxDone
    requires c.co.parties[i].id in s.stores && c.co.parties[i].id in c.nodes
    ensures CanBe(c, s, i, AwaitingLeg(c), HeardEnd(c))
  {
    LegDials(c, s, i);
    LegTells(c, s, i);
    var e := HandleTo(c, s, i, AwaitingLeg(c), ToldEnd(c), HeardEnd(c));
  }

  /** The participant has found its key and is about to send Ready. */
  function FoundEnd(c: SignConfig, id: PartyId, d: KeyData): End {
    HeardEnd(c).(handler := TellReady, data := Some(d), accepted := id !in c.dev)
  }

  lemma EndFinds(c: SignConfig, s: Sys, i: nat, l: M.Leg)
    requires CanBe(c, s, i, l, HeardEnd(c))
    requires var id := c.co.parties[i].id;
      id in c.nodes && HoldsReady(s.stores, id, NamedEntry(c)) && StoreInv(s.stores[id])
    ensures var id := c.co.parties[i].id; CanBe(c, s, i, l, FoundEnd(c, id, s.stores[id][NamedEntry(c)]))
  {
    var id := c.co.parties[i].id;
    var d := s.stores[id][NamedEntry(c)];
    var e := HeardEnd(c);
    assert EntryOk(NamedEntry(c), d);
    e := HandleTo(c, s, i, l, e, e.(data := Some(d), handler := Validate));
    e := HandleTo(c, s, i, l, e, e.(handler := Parse, accepted := id !in c.dev));
    e := HandleTo(c, s, i, l, e, e.(handler := TellReady));
    assert e == FoundEnd(c, id, d);
  }

  lemma EndAnswers(c: SignConfig, s: Sys, i: nat, d: KeyData)
    requires i < |c.co.parties| && CanBe(c, s, i, AwaitingLeg(c), FoundEnd(c, c.co.parties[i].id, d))
    requires c.co.parties[i].id in s.stores
    ensures CanBe(c, s, i, ReadyLeg(c, M.PushReady), ReadyEnd(c, c.co.parties[i].id, d))
  {
    var l, e := AwaitingLeg(c), FoundEnd(c, c.co.parties[i].id, d);
    e := HandleTo(c, s, i, l, e, SignUp(e, KeySignReadyMsg).(handler := HearStart));
    l, e := MoveTo(c, s, i, l, e, M.Delivers(KeySignReadyMsg), ReadyLeg(c, M.PushReady), e.(upRead := 1));
    assert e == ReadyEnd(c, c.co.parties[i].id, d);
  }

  lemma LegBecomesReady(c: SignConfig, s: Sys, i: nat)
    requires Reachable(c, s) && i < |s.co.legs| == |s.ends| == |c.co.parties|
    requires s.co.legs[i] == M.Leg(M.Begin, [], []) && s.ends[i] == NewEnd() && !s.co.ctxDone
    requires var id := c.co.parties[i].id;
      id in c.nodes && HoldsReady(s.stores, id, NamedEntry(c)) && StoreInv(s.stores[id])
    ensures var id := c.co.parties[i].id;
      CanBe(c, s, i, ReadyLeg(c, M.PushReady), ReadyEnd(c, id, s.stores[id][NamedEntry(c)]))
  {
    var id := c.co.parties[i].id;
    LegPrepares(c, s, i);
    EndFinds(c, s, i, AwaitingLeg(c));
    EndAnswers(c, s, i, s.stores[id][NamedEntry(c)]);
  }

  // ---- a selected party signs ----

  const SOME_SIGNATURE: Signature := Signature([1], [1], [0])

  function SomeFinish(): KeySignFinish {
    KeySignFinish(true, [], SOME_SIGNATURE)
  }

  /** The end of a participant that has read Start. */
  function StartedEnd(c: SignConfig, id: PartyId, d: KeyData, signers: seq<PartyID>): End {
    var start := KeySignStartMsg(signers);
    var e := ReadyEnd(c, id, d);
    e.(handler := Sign, down := e.down + [start], downRead := 2, log := e.log + [start],
       run := Some(SigningRun(signers, c.co.prepare.signMsg, d.saveDataJson, d.threshold)))
  }

  function StartedLeg(l: M.Leg, signers: seq<PartyID>): M.Leg {
    M.Did(l, M.Sent(KeySignStartMsg(signers))).(pc := M.AwaitFinish)
  }

  lemma LegStarts(c: SignConfig, s: Sys, i: nat, d: KeyData)
    requires Reachable(c, s) && i < |s.co.legs| == |s.ends| == |c.co.parties|
    requires s.co.legs[i].pc.Begin2? && s.ends[i] == ReadyEnd(c, c.co.parties[i].id, d) && !s.co.ctxDone
    requires c.co.parties[i].id in s.stores && c.co.parties[i].id in Ids(s.co.signers)
    ensures CanBe(c, s, i, StartedLeg(s.co.legs[i], s.co.signers), StartedEnd(c, c.co.parties[i].id, d, s.co.signers))
  {
    var start := KeySignStartMsg(s.co.signers);
    LegIs(c, s, i);
    var l, e := s.co.legs[i], s.ends[i];
    l, e := MoveTo(c, s, i, l, e, M.Quiet, StartedLeg(l, s.co.signers), SignDown(e, start));
    e := HandleTo(c, s, i, l, e, StartedEnd(c, c.co.parties[i].id, d, s.co.signers));
  }

  lemma EndSigns(c: SignConfig, s: Sys, i: nat, l: M.Leg, e0: End) returns (e: End)
    requires CanBe(c, s, i, l, e0) && e0.handler.Sign? && c.co.parties[i].id in s.stores
    ensures CanBe(c, s, i, l, e) && e.upRead == e0.upRead && e.up == e0.up + [KeySignFinishMsg(SomeFinish())]
  {
    e := HandleTo(c, s, i, l, e0, e0.(signed := Some(SOME_SIGNATURE), handler := TellFinish(SomeFinish())));
    e := HandleTo(c, s, i, l, e, SignUp(e, KeySignFinishMsg(SomeFinish())).(handler := Done));
  }

  lemma LegSigns(c: SignConfig, s: Sys, i: nat, d: KeyData) returns (l: M.Leg, e: End)
    requires Reachable(c, s) && i < |s.co.legs| == |s.ends| == |c.co.parties|
    requires s.co.legs[i].pc.Begin2? && s.ends[i] == ReadyEnd(c, c.co.parties[i].id, d) && !s.co.ctxDone
    requires c.co.parties[i].id in s.stores && c.co.parties[i].id in Ids(s.co.signers)
    ensures CanBe(c, s, i, l, e) && l.pc == M.PushFinish(SomeFinish())
  {
    LegStarts(c, s, i, d);
    l := StartedLeg(s.co.legs[i], s.co.signers);
    e := EndSigns(c, s, i, l, StartedEnd(c, c.co.parties[i].id, d, s.co.signers));
    l, e := MoveTo(c, s, i, l, e, M.Delivers(KeySignFinishMsg(SomeFinish())),
                   M.Did(l, M.Got(KeySignFinishMsg(SomeFinish()))).(pc := M.PushFinish(SomeFinish())),
                   e.(upRead := e.upRead + 1));
  }

  // ---- the first phase ----

  ghost predicate Holder(c: SignConfig, stores: map<PartyId, Store>, id: PartyId) {
    id in c.nodes && HoldsReady(stores, id, NamedEntry(c))
  }

  /** What the construction keeps: the stores stand still and the context lives. */
  ghost predicate OnWay(c: SignConfig, stores: map<PartyId, Store>, s: Sys) {
    && Reachable(c, s) && s.stores == stores && !s.co.ctxDone
    && |s.co.legs| == |s.ends| == |c.co.parties|
  }

  /** A party that holds the key is ready and its stream queued; another could not be dialled. */
  ghost predicate FirstDone(c: SignConfig, stores: map<PartyId, Store>, id: PartyId, l: M.Leg, e: End) {
    if Holder(c, stores, id) then l.pc.Queued? && e == ReadyEnd(c, id, stores[id][NamedEntry(c)])
    else l.pc.Gone?
  }

  ghost predicate FirstUpTo(c: SignConfig, stores: map<PartyId, Store>, s: Sys, k: nat) {
    && OnWay(c, stores, s) && s.co.main.WaitDials?
    && (forall j :: 0 <= j < k && j < |c.co.parties| ==>
          FirstDone(c, stores, c.co.parties[j].id, s.co.legs[j], s.ends[j]))
    && (forall j :: k <= j < |c.co.parties| ==> s.co.legs[j] == M.Leg(M.Begin, [], []) && s.ends[j] == NewEnd())
  }

  /** Only leg `i` and its end changed, and what is on the channels. */
  ghost predicate OnlyLeg(s: Sys, s': Sys, i: nat) {
    && s'.stores == s.stores && |s'.co.legs| == |s.co.legs| && |s'.ends| == |s.ends| == |s.co.legs|
    && s'.co.main == s.co.main && s'.co.ctxDone == s.co.ctxDone && s'.co.signers == s.co.signers
    && s'.co.selected == s.co.selected && s'.co.ready == s.co.ready
    && forall j :: 0 <= j < |s.co.legs| && j != i ==> s'.co.legs[j] == s.co.legs[j] && s'.ends[j] == s.ends[j]
  }

  /** Where a goroutine is after its push. */
  function AfterPushAt(pc: M.Goroutine): M.Goroutine {
    match pc
    case DialError(_) => M.Gone
    case PushReady => M.Queued
    case PushFinish(_) => M.Left2
    case _ => pc
  }

  /** What a push makes of the coordinator. */
  function AfterPush(co: M.State, i: nat): M.State
    requires i < |co.legs|
  {
    var l := co.legs[i];
    var push := if l.pc.DialError? then M.Error1 else if l.pc.PushReady? then M.Ready1 else M.Finish2;
    co.(legs := co.legs[i := M.Pushed(l, push, AfterPushAt(l.pc))],
        errChan := if l.pc.DialError? then co.errChan + [l.pc.error] else co.errChan,
        readyChan := if l.pc.PushReady? then co.readyChan + [i] else co.readyChan,
        finishChan := if l.pc.PushFinish? then co.finishChan + [l.pc.finish] else co.finishChan)
  }

  /** A goroutine that is about to send on a channel can. */
  lemma PushTo(c: SignConfig, s: Sys, i: nat) returns (s': Sys)
    requires Reachable(c, s) && i < |s.co.legs| == |s.ends| == |c.co.parties|
    requires var pc := s.co.legs[i].pc; pc.DialError? || pc.PushReady? || pc.PushFinish?
    ensures Reachable(c, s') && s' == s.(co := AfterPush(s.co, i)) && OnlyLeg(s, s', i)
  {
    ReachableCoordinator(c, s);
    CanPush(c.co, s.co, i);
    s' := s.(co := AfterPush(s.co, i));
    PushReaches(c, s, s', i);
    PushOnly(s, i);
  }

  lemma PushReaches(c: SignConfig, s: Sys, s': Sys, i: nat)
    requires Reachable(c, s) && s' == s.(co := s'.co) && M.Pushes(c.co, s.co, s'.co, i)
    requires |s.ends| == |c.co.parties| == |s.co.legs|
    ensures Reachable(c, s')
  {
    StepReaches(c, s, s', Coordinator(M.LegPushes(i)));
  }

  lemma PushOnly(s: Sys, i: nat)
    requires i < |s.co.legs| == |s.ends|
    ensures OnlyLeg(s, s.(co := AfterPush(s.co, i)), i)
  {
  }

  lemma CanPush(c: M.Config, co: M.State, i: nat)
    requires M.Reachable(c, co) && i < |co.legs|
    requires var pc := co.legs[i].pc; pc.DialError? || pc.PushReady? || pc.PushFinish?
    ensures M.Pushes(c, co, AfterPush(co, i), i)
  {
    MT.SendsNeverBlock(c, co, i);
  }

  lemma OnlyLegTwice(s: Sys, mid: Sys, s': Sys, i: nat)
    requires OnlyLeg(s, mid, i) && OnlyLeg(mid, s', i)
    ensures OnlyLeg(s, s', i)
  {
  }

  lemma WithLegOnly(s: Sys, i: nat, l: M.Leg, e: End)
    requires i < |s.co.legs| == |s.ends|
    ensures OnlyLeg(s, WithLeg(s, i, l, e), i)
  {
  }

  /** The leg comes to a push and makes it. */
  lemma PushFrom(c: SignConfig, s: Sys, i: nat, l: M.Leg, e: End) returns (s': Sys)
    requires CanBe(c, s, i, l, e) && (l.pc.DialError? || l.pc.PushReady? || l.pc.PushFinish?)
    ensures Reachable(c, s') && OnlyLeg(s, s', i) && s'.ends[i] == e && s'.co.legs[i].pc == AfterPushAt(l.pc)
    ensures s'.co.finishChan == if l.pc.PushFinish? then s.co.finishChan + [l.pc.finish] else s.co.finishChan
  {
    var mid := WithLeg(s, i, l, e);
    WithLegOnly(s, i, l, e);
    s' := PushTo(c, mid, i);
    OnlyLegTwice(s, mid, s', i);
  }

  lemma HolderFirst(c: SignConfig, s: Sys, k: nat) returns (s': Sys)
    requires OnWay(c, s.stores, s) && k < |c.co.parties| && Holder(c, s.stores, c.co.parties[k].id)
    requires s.co.legs[k] == M.Leg(M.Begin, [], []) && s.ends[k] == NewEnd()
    requires StoreInv(s.stores[c.co.parties[k].id])
    ensures Reachable(c, s') && OnlyLeg(s, s', k) && s'.co.legs[k].pc.Queued?
    ensures var id := c.co.parties[k].id; s'.ends[k] == ReadyEnd(c, id, s.stores[id][NamedEntry(c)])
  {
    var id := c.co.parties[k].id;
    var l, e := ReadyLeg(c, M.PushReady), ReadyEnd(c, id, s.stores[id][NamedEntry(c)]);
    LegBecomesReady(c, s, k);
    s' := PushFrom(c, s, k, l, e);
  }

  lemma OtherFirst(c: SignConfig, s: Sys, k: nat) returns (s': Sys)
    requires OnWay(c, s.stores, s) && k < |c.co.parties| && s.co.legs[k] == M.Leg(M.Begin, [], [])
    ensures Reachable(c, s') && OnlyLeg(s, s', k) && s'.co.legs[k].pc.Gone?
  {
    LegIs(c, s, k);
    var l, e := s.co.legs[k], s.ends[k];
    l, e := MoveTo(c, s, k, l, e, M.Fails, l.(pc := M.DialError([])), e);
    s' := PushFrom(c, s, k, l, e);
  }

  /** One party's first phase. */
  lemma NextFirst(c: SignConfig, stores: map<PartyId, Store>, s: Sys, k: nat) returns (s': Sys)
    requires FirstUpTo(c, stores, s, k) && k < |c.co.parties|
    requires forall n :: n in stores ==> StoreInv(stores[n])
    ensures FirstUpTo(c, stores, s', k + 1)
  {
    if Holder(c, stores, c.co.parties[k].id) {
      s' := HolderFirst(c, s, k);
    } else {
      s' := OtherFirst(c, s, k);
    }
  }

  lemma {:induction false} AllFirst(c: SignConfig, stores: map<PartyId, Store>, s: Sys, k: nat) returns (s': Sys)
    requires FirstUpTo(c, stores, s, k) && k <= |c.co.parties|
    requires forall n :: n in stores ==> StoreInv(stores[n])
    ensures FirstUpTo(c, stores, s', |c.co.parties|)
    decreases |c.co.parties| - k
  {
    if k == |c.co.parties| {
      s' := s;
    } else {
      s' := NextFirst(c, stores, s, k);
      s' := AllFirst(c, stores, s', k + 1);
    }
  }

  // ---- the selection ----

  /** A party that holds the key is queued, in the map, or gave way in the map to another stream. */
  predicate Offered(l: M.Leg) {
    l.pc.Queued? || l.pc.Chosen? || l.pc.Overwritten?
  }

  ghost predicate EndReady(c: SignConfig, stores: map<PartyId, Store>, id: PartyId, e: End) {
    Holder(c, stores, id) && e == ReadyEnd(c, id, stores[id][NamedEntry(c)])
  }

  ghost predicate SelectingOk(c: SignConfig, stores: map<PartyId, Store>, s: Sys) {
    && OnWay(c, stores, s) && s.co.main.Selecting?
    && (forall j :: 0 <= j < |c.co.parties| && Holder(c, stores, c.co.parties[j].id) ==> Offered(s.co.legs[j]))
    && (forall j :: 0 <= j < |c.co.parties| && Offered(s.co.legs[j]) ==>
          EndReady(c, stores, c.co.parties[j].id, s.ends[j]))
  }

  /** Before party `k` the selected have finished, from there on they are about to be started. */
  ghost predicate SecondUpTo(c: SignConfig, stores: map<PartyId, Store>, s: Sys, k: nat) {
    && OnWay(c, stores, s) && s.co.main.WaitFinishers?
    && (forall j :: 0 <= j < |c.co.parties| && M.SecondPhase(s.co.legs[j].pc) ==>
          if j < k then s.co.legs[j].pc.Left2? && s.co.finishChan != []
          else s.co.legs[j].pc.Begin2? && EndReady(c, stores, c.co.parties[j].id, s.ends[j]))
    && (forall j :: 0 <= j < |s.co.finishChan| ==> s.co.finishChan[j] == SomeFinish())
  }

  lemma FirstOver(c: SignConfig, stores: map<PartyId, Store>, s: Sys) returns (s': Sys)
    requires FirstUpTo(c, stores, s, |c.co.parties|)
    ensures SelectingOk(c, stores, s')
  {
    s' := s.(co := s.co.(main := M.Selecting));
    StepReaches(c, s, s', Coordinator(M.MainDialsDone));
  }

  /** The distinct listed parties that hold the named key session ready. */
  ghost function Holders(c: SignConfig, stores: map<PartyId, Store>): (r: set<PartyId>)
    ensures forall id :: id in r <==> id in MT.DistinctParties(c.co) && Holder(c, stores, id)
  {
    set id | id in MT.DistinctParties(c.co) && Holder(c, stores, id)
  }

  /** With nothing queued, everyone who holds the key is in the map. */
  lemma HoldersInMap(c: SignConfig, stores: map<PartyId, Store>, s: Sys)
    requires SelectingOk(c, stores, s) && MI.MapInv(c.co, s.co) && MI.QueueInv(s.co) && s.co.readyChan == []
    ensures |Holders(c, stores)| <= |s.co.ready|
  {
    forall id | id in Holders(c, stores) ensures id in s.co.ready {
      var j :| 0 <= j < |Ids(c.co.parties)| && Ids(c.co.parties)[j] == id;
      assert Offered(s.co.legs[j]) && j !in s.co.readyChan;
    }
    SubsetCard(Holders(c, stores), s.co.ready.Keys);
    assert |s.co.ready| == |s.co.ready.Keys|;
  }

  /** While the selection is under way and enough parties hold the key, one is queued. */
  lemma SomeoneQueued(c: SignConfig, stores: map<PartyId, Store>, s: Sys)
    requires SelectingOk(c, stores, s) && MI.Inv(c.co, s.co) && |Holders(c, stores)| >= M.Quorum(c.co)
    ensures s.co.readyChan != []
  {
    SelectingNotEnough(c.co, s.co);
    if s.co.readyChan == [] {
      HoldersInMap(c, stores, s);
    }
  }

  lemma SelectingNotEnough(c: M.Config, co: M.State)
    requires MI.PhaseInv(co) && MI.QuorumInv(c, co) && co.main.Selecting?
    ensures !co.selected && |co.ready| < M.Quorum(c) && co.finishChan == []
  {
  }

  /** What taking a ready stream does to the places of goroutines. */
  lemma TakenPlaces(c: M.Config, co: M.State)
    requires MI.MapInv(c, co) && MI.QueueInv(co) && MI.PhaseInv(co) && co.main.Selecting? && co.readyChan != []
    ensures M.ReadyToTake(c, co)
    ensures var co' := M.AfterReady(c, co);
      && |co'.legs| == |co.legs| && co'.finishChan == co.finishChan && co'.ctxDone == co.ctxDone
      && (co'.main.Selecting? ==>
            && |co'.readyChan| < |co.readyChan|
            && forall j :: 0 <= j < |co.legs| ==> MI.ChoosesLeg(co.legs[j], co'.legs[j]))
      && (!co'.main.Selecting? ==>
            co'.main.WaitFinishers? && forall j :: 0 <= j < |co.legs| ==> Passed(co.legs[j], co'.legs[j]))
  {
    MI.EnteringChooses(c, co);
    var mid, co' := MI.Entered(c, co), M.AfterReady(c, co);
    if !co'.main.Selecting? {
      forall j | 0 <= j < |co.legs| ensures Passed(co.legs[j], co'.legs[j]) {
        assert co'.legs[j] == if mid.legs[j].pc.Chosen? then mid.legs[j].(pc := M.Begin2) else mid.legs[j];
        assert MI.ChoosesLeg(co.legs[j], mid.legs[j]);
      }
    }
  }

  /** After the selection passes, the second phase is about to begin for streams that were offered. */
  predicate Passed(l: M.Leg, l': M.Leg) {
    M.SecondPhase(l'.pc) && !M.SecondPhase(l.pc) ==> l'.pc.Begin2? && Offered(l)
  }

  lemma TakeOne(c: SignConfig, stores: map<PartyId, Store>, s: Sys) returns (s': Sys)
    requires SelectingOk(c, stores, s) && |Holders(c, stores)| >= M.Quorum(c.co)
    ensures SecondUpTo(c, stores, s', 0) || (SelectingOk(c, stores, s') && |s'.co.readyChan| < |s.co.readyChan|)
  {
    ReachableSession(c, s);
    SomeoneQueued(c, stores, s);
    TakenPlaces(c.co, s.co);
    s' := s.(co := M.AfterReady(c.co, s.co));
    TakeReaches(c, s, s');
    SelectingNotEnough(c.co, s.co);
    NotYetSecond(s.co);
    if s'.co.main.Selecting? {
      StillSelecting(c, stores, s, s');
    } else {
      NowSecond(c, stores, s, s');
    }
  }

  lemma TakeReaches(c: SignConfig, s: Sys, s': Sys)
    requires Reachable(c, s) && M.ReadyToTake(c.co, s.co) && s' == s.(co := M.AfterReady(c.co, s.co))
    requires |s.ends| == |c.co.parties| == |s.co.legs|
    ensures Reachable(c, s')
  {
    StepReaches(c, s, s', Coordinator(M.MainTakesReady));
  }

  lemma StillSelecting(c: SignConfig, stores: map<PartyId, Store>, s: Sys, s': Sys)
    requires SelectingOk(c, stores, s) && Reachable(c, s') && s' == s.(co := s'.co) && !s'.co.ctxDone
    requires s'.co.main.Selecting? && |s'.co.legs| == |s.co.legs|
    requires forall j :: 0 <= j < |s.co.legs| ==> MI.ChoosesLeg(s.co.legs[j], s'.co.legs[j])
    ensures SelectingOk(c, stores, s')
  {
    forall j | 0 <= j < |s.co.legs| ensures Offered(s'.co.legs[j]) == Offered(s.co.legs[j]) {
      assert MI.ChoosesLeg(s.co.legs[j], s'.co.legs[j]);
    }
  }

  lemma NowSecond(c: SignConfig, stores: map<PartyId, Store>, s: Sys, s': Sys)
    requires SelectingOk(c, stores, s) && Reachable(c, s') && s' == s.(co := s'.co) && !s'.co.ctxDone
    requires s'.co.main.WaitFinishers? && |s'.co.legs| == |s.co.legs| && s'.co.finishChan == []
    requires forall j :: 0 <= j < |s.co.legs| ==> Passed(s.co.legs[j], s'.co.legs[j]) && !M.SecondPhase(s.co.legs[j].pc)
    ensures SecondUpTo(c, stores, s', 0)
  {
    forall j | 0 <= j < |s.co.legs| && M.SecondPhase(s'.co.legs[j].pc)
      ensures s'.co.legs[j].pc.Begin2? && EndReady(c, stores, c.co.parties[j].id, s'.ends[j])
    {
      assert Passed(s.co.legs[j], s'.co.legs[j]);
    }
  }

  lemma {:induction false} SelectionPasses(c: SignConfig, stores: map<PartyId, Store>, s: Sys) returns (s': Sys)
    requires SelectingOk(c, stores, s) && |Holders(c, stores)| >= M.Quorum(c.co)
    ensures SecondUpTo(c, stores, s', 0)
    decreases |s.co.readyChan|
  {
    s' := TakeOne(c, stores, s);
    if s'.co.main.Selecting? {
      s' := SelectionPasses(c, stores, s');
    }
  }

  // ---- the second phase ----

  lemma SignerOfLeg(c: SignConfig, s: Sys, k: nat)
    requires Reachable(c, s) && k < |s.co.legs| == |c.co.parties| && M.SecondPhase(s.co.legs[k].pc)
    ensures c.co.parties[k].id in Ids(s.co.signers)
  {
    ReachableSession(c, s);
    SecondMeansSelected(s.co, k);
    SelectedIsSigner(c, s.co, k);
  }

  /** One selected party signs and its finish is queued. */
  lemma SelectedSigns(c: SignConfig, s: Sys, k: nat, d: KeyData) returns (s': Sys)
    requires Reachable(c, s) && k < |s.co.legs| == |s.ends| == |c.co.parties| && !s.co.ctxDone
    requires s.co.legs[k].pc.Begin2? && s.ends[k] == ReadyEnd(c, c.co.parties[k].id, d)
    requires c.co.parties[k].id in s.stores
    ensures Reachable(c, s') && OnlyLeg(s, s', k)
    ensures s'.co.legs[k].pc.Left2? && s'.co.finishChan == s.co.finishChan + [SomeFinish()]
  {
    SignerOfLeg(c, s, k);
    var l, e := LegSigns(c, s, k, d);
    s' := PushFrom(c, s, k, l, e);
  }

  lemma NextSecond(c: SignConfig, stores: map<PartyId, Store>, s: Sys, k: nat) returns (s': Sys)
    requires SecondUpTo(c, stores, s, k) && k < |c.co.parties|
    ensures SecondUpTo(c, stores, s', k + 1)
  {
    if M.SecondPhase(s.co.legs[k].pc) {
      s' := SelectedSigns(c, s, k, stores[c.co.parties[k].id][NamedEntry(c)]);
    } else {
      s' := s;
    }
  }

  lemma {:induction false} AllSecond(c: SignConfig, stores: map<PartyId, Store>, s: Sys, k: nat) returns (s': Sys)
    requires SecondUpTo(c, stores, s, k) && k <= |c.co.parties|
    ensures SecondUpTo(c, stores, s', |c.co.parties|)
    decreases |c.co.parties| - k
  {
    if k == |c.co.parties| {
      s' := s;
    } else {
      s' := NextSecond(c, stores, s, k);
      s' := AllSecond(c, stores, s', k + 1);
    }
  }

  /** Someone was selected. */
  lemma SomeoneSelected(c: M.Config, co: M.State) returns (j: nat)
    requires MI.MapInv(c, co) && MI.PhaseInv(co) && MI.QuorumInv(c, co) && co.main.WaitFinishers?
    ensures j < |co.legs| == |c.parties| && M.SecondPhase(co.legs[j].pc)
  {
    var p :| p in co.ready;
    j := co.ready[p];
  }

  lemma FinishersDone(c: SignConfig, stores: map<PartyId, Store>, s: Sys) returns (s': Sys)
    requires SecondUpTo(c, stores, s, |c.co.parties|)
    ensures Reachable(c, s') && s' == s.(co := s.co.(main := M.Finishing(0)))
  {
    s' := s.(co := s.co.(main := M.Finishing(0)));
    StepReaches(c, s, s', Coordinator(M.MainFinishersDone));
  }

  lemma SuccessTaken(c: SignConfig, s: Sys) returns (s': Sys)
    requires Reachable(c, s) && s.co.main.Finishing? && |s.ends| == |c.co.parties| == |s.co.legs|
    requires s.co.finishChan != [] && s.co.finishChan[0].isSuccess
    ensures Reachable(c, s') && s'.stores == s.stores && s'.co.result.Success?
  {
    s' := s.(co := M.AfterFinish(s.co));
    StepReaches(c, s, s', Coordinator(M.MainTakesFinish));
  }

  lemma SignatureReturned(c: SignConfig, stores: map<PartyId, Store>, s: Sys) returns (s': Sys)
    requires SecondUpTo(c, stores, s, |c.co.parties|)
    ensures Reachable(c, s') && s'.stores == stores && s'.co.result.Success?
  {
    ReachableSession(c, s);
    var j := SomeoneSelected(c.co, s.co);
    var mid := FinishersDone(c, stores, s);
    s' := SuccessTaken(c, mid);
  }

  // ---- exactly when a session can return a signature ----

  /** With these stores, some run of the session returns a signature. */
  ghost predicate CanSign(c: SignConfig, stores: map<PartyId, Store>) {
    exists s :: Reachable(c, s) && s.stores == stores && s.co.result.Success?
  }

  lemma SessionStarts(c: SignConfig, stores: map<PartyId, Store>) returns (s: Sys)
    requires M.WellFormed(c.co) && stores.Keys == c.nodes && forall n :: n in stores ==> StoreInv(stores[n])
    ensures FirstUpTo(c, stores, s, 0)
  {
    s := Sys(M.NewState(c.co), stores, seq(|c.co.parties|, _ => NewEnd()));
    assert Run(c, [s]);
  }

  lemma EnoughCanSign(c: SignConfig, stores: map<PartyId, Store>)
    requires M.WellFormed(c.co) && stores.Keys == c.nodes && forall n :: n in stores ==> StoreInv(stores[n])
    requires |Holders(c, stores)| >= M.Quorum(c.co)
    ensures CanSign(c, stores)
  {
    var s := SessionStarts(c, stores);
    s := AllFirst(c, stores, s, 0);
    s := FirstOver(c, stores, s);
    s := SelectionPasses(c, stores, s);
    s := AllSecond(c, stores, s, 0);
    s := SignatureReturned(c, stores, s);
  }

  /** Whoever is in the map of a passed selection holds the key. */
  lemma SelectedHolds(c: SignConfig, s: Sys, p: PartyId)
    requires Reachable(c, s) && s.co.selected && p in s.co.ready
    ensures p in Holders(c, s.stores) && |s.co.ready| == M.Quorum(c.co)
  {
    var run :| Run(c, run) && run[|run| - 1] == s;
    QuorumIsPrepared(c, run, |run| - 1, p);
    NodesStay(c, s);
    assert Ids(c.co.parties)[s.co.ready[p]] == p;
  }

  lemma NodesStay(c: SignConfig, s: Sys)
    requires Reachable(c, s)
    ensures s.stores.Keys == c.nodes
  {
    ReachableSession(c, s);
  }

  lemma SignedMeansEnough(c: SignConfig, s: Sys)
    requires Reachable(c, s) && s.co.result.Success?
    ensures |Holders(c, s.stores)| >= M.Quorum(c.co)
  {
    PassedSelection(c, s);
    forall p | p in s.co.ready.Keys ensures p in Holders(c, s.stores) {
      SelectedHolds(c, s, p);
    }
    SubsetCard(s.co.ready.Keys, Holders(c, s.stores));
  }

  lemma PassedSelection(c: SignConfig, s: Sys)
    requires Reachable(c, s) && s.co.result.Success?
    ensures s.co.selected && |s.co.ready.Keys| == M.Quorum(c.co)
  {
    ReachableSession(c, s);
    SuccessIsSelected(c.co, s.co);
    MT.QuorumSelected(c.co, s.co);
    assert |s.co.ready| == |s.co.ready.Keys|;
  }

  lemma SuccessIsSelected(c: M.Config, co: M.State)
    requires MI.Inv(c, co) && co.result.Success?
    ensures co.selected
  {
  }

  /** With the stores as they stand, a signing session can return a signature exactly when threshold + 1
      (and at least one) distinct listed parties hold the named key session ready. */
  lemma SigningPossibleIff(c: SignConfig, stores: map<PartyId, Store>)
    requires M.WellFormed(c.co) && stores.Keys == c.nodes && forall n :: n in stores ==> StoreInv(stores[n])
    ensures CanSign(c, stores) <==> |Holders(c, stores)| >= M.Quorum(c.co)
  {
    if CanSign(c, stores) {
      var s :| Reachable(c, s) && s.stores == stores && s.co.result.Success?;
      SignedMeansEnough(c, s);
    }
    if |Holders(c, stores)| >= M.Quorum(c.co) {
      EnoughCanSign(c, stores);
    }
  }
}
