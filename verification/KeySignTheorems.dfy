/** What the key signing coordinator guarantees in every reachable state, whatever participants do. */
module KeySignTheorems {
  import opened TssTypes
  import opened SeqLemmas
  import opened KeySignModel
  import opened KeySignInvariant

  // ---- channels ----

  /** No goroutine that is about to send finds its channel full or closed. */
  lemma SendsNeverBlock(c: Config, s: State, i: nat)
    requires Reachable(c, s) && i < |s.legs|
    ensures var pc := s.legs[i].pc;
      && (pc.DialError? || pc.RejectError? || pc.PrepareError? || pc.PushError2? ==>
            Room(s.errChan, |c.parties|) && !s.chansClosed)
      && (pc.PushReady? ==> Room(s.readyChan, |c.parties|) && !s.chansClosed)
      && (pc.PushFinish? ==> Room(s.finishChan, |s.ready|) && !s.finishClosed && !s.chansClosed)
  {
    ReachableInv(c, s);
    var pc := s.legs[i].pc;
    NotPushedYet(c, s.signers, s.legs[i]);
    if pc.PushFinish? {
      FinishRoom(c, s, i);
    } else if pc.PushReady? {
      QueueRoom(c, s, i);
    } else if pc.DialError? || pc.RejectError? || pc.PrepareError? || pc.PushError2? {
      ErrorRoom(c, s, i);
    }
    OpenWhileSending(s, i);
  }

  lemma NotPushedYet(c: Config, signers: seq<PartyID>, l: Leg)
    requires LegOk(c, signers, l)
    ensures l.pc.DialError? || l.pc.RejectError? || l.pc.PrepareError? || l.pc.PushError2? ==> !PushedError(l)
    ensures l.pc.PushFinish? ==> Finish2 !in l.pushes
  {
  }

  lemma OpenWhileSending(s: State, i: nat)
    requires PhaseInv(s) && i < |s.legs|
    ensures !FirstPhaseOver(s.legs[i].pc) ==> !s.chansClosed
    ensures SecondPhase(s.legs[i].pc) && !s.legs[i].pc.Left2? ==> !s.chansClosed && !s.finishClosed
  {
  }

  /** Each first-phase goroutine puts at most one item on a channel, each second-phase goroutine at
      most one more, and no error is ever dropped. */
  lemma AtMostOneItemEach(c: Config, s: State, i: nat)
    requires Reachable(c, s) && i < |s.legs|
    ensures s.legs[i].pushes in {[], [Error1], [Ready1], [Ready1, Error2], [Ready1, Finish2]}
  {
    ReachableInv(c, s);
    assert LegOk(c, s.signers, s.legs[i]);
  }

  /** While main is in its loops, what is on the channels is exactly what goroutines put there and
      nobody took: every error, each ready stream still queued, and the finishes not yet counted. */
  lemma ChannelsConserve(c: Config, s: State)
    requires Reachable(c, s)
    ensures Active(s.main) ==> |s.errChan| == |ErrSet(s.legs)|
    ensures Distinct(s.readyChan) && forall i :: i in s.readyChan <==> 0 <= i < |s.legs| && s.legs[i].pc.Queued?
    ensures s.main.WaitFinishers? ==> |s.finishChan| == |FinSet(s.legs)|
    ensures s.main.Finishing? ==> s.main.finishCnt + |s.finishChan| == |FinSet(s.legs)|
  {
    ReachableInv(c, s);
  }

  // ---- the finish loop ----

  predicate FinishEnabled(s: State) {
    s.ctxDone || s.errChan != [] || s.finishChan != []
  }

  /** If nobody reported an error and the context lives on, every selected goroutine delivered. */
  lemma EveryoneFinished(c: Config, s: State)
    requires LegsInv(c, s) && MapInv(c, s) && PhaseInv(s) && s.main.Finishing?
    requires !s.ctxDone && ErrSet(s.legs) == {}
    ensures |FinSet(s.legs)| >= |s.ready|
  {
    forall k | k in InMapSet(s.legs) ensures k in FinSet(s.legs) {
      assert k !in ErrSet(s.legs);
      LeftWithFinish(c, s.signers, s.legs[k]);
    }
    MapCard(c, s);
    SubsetCard(InMapSet(s.legs), FinSet(s.legs));
  }

  lemma LeftWithFinish(c: Config, signers: seq<PartyID>, l: Leg)
    requires LegOk(c, signers, l) && LegCtx(false, l)
    requires !l.pc.Chosen? && (SecondPhase(l.pc) ==> l.pc.Left2?) && InMap(l.pc) && !PushedError(l)
    ensures Finish2 in l.pushes
  {
  }

  /** The finish loop is never stuck. */
  lemma FinishLoopNeverStuck(c: Config, s: State)
    requires Reachable(c, s) && s.main.Finishing?
    ensures FinishEnabled(s)
  {
    ReachableInv(c, s);
    if !s.ctxDone && s.errChan == [] {
      assert ErrSet(s.legs) == {};
      EveryoneFinished(c, s);
    }
  }

  // ---- the selection loop ----

  predicate SelectEnabled(s: State) {
    s.ctxDone || s.errChan != [] || s.readyChan != []
  }

  ghost function DistinctParties(c: Config): set<PartyId> {
    ToSet(Ids(c.parties))
  }

  lemma SelectedOrOverwritten(c: Config, signers: seq<PartyID>, l: Leg)
    requires LegOk(c, signers, l) && LegCtx(false, l) && FirstPhaseOver(l.pc)
    requires !PushedError(l) && !l.pc.Queued? && !InCancel(l.pc)
    ensures InMap(l.pc) || l.pc.Overwritten?
  {
  }

  /** Selecting with nothing to take and no error, every party is already in the map. */
  lemma EveryoneInMap(c: Config, s: State)
    requires Inv(c, s) && s.main.Selecting? && !SelectEnabled(s)
    ensures forall i :: 0 <= i < |s.legs| ==> c.parties[i].id in s.ready
  {
    assert ErrSet(s.legs) == {} && CancelSet(s.legs) == {};
    forall i | 0 <= i < |s.legs| ensures c.parties[i].id in s.ready {
      assert i !in ErrSet(s.legs) && i !in CancelSet(s.legs);
      assert i !in s.readyChan;
      SelectedOrOverwritten(c, s.signers, s.legs[i]);
    }
  }

  lemma SelectionNotStuck(c: Config, s: State)
    requires Reachable(c, s) && s.main.Selecting?
    requires |DistinctParties(c)| >= Quorum(c)
    ensures SelectEnabled(s)
  {
    ReachableInv(c, s);
    if !SelectEnabled(s) {
      EveryoneInMap(c, s);
      EveryoneCounts(c, s.ready.Keys);
    }
  }

  lemma EveryoneCounts(c: Config, ready: set<PartyId>)
    requires forall i :: 0 <= i < |c.parties| ==> c.parties[i].id in ready
    ensures |DistinctParties(c)| <= |ready|
  {
    forall p | p in DistinctParties(c) ensures p in ready {
      var i :| 0 <= i < |Ids(c.parties)| && Ids(c.parties)[i] == p;
    }
    SubsetCard(DistinctParties(c), ready);
  }

  // A run in which everyone is ready: the only way for the loop to run out of things to take.

  function QueuedLeg(c: Config): Leg {
    Leg(Queued, [Sent(KeySignPrepareMsg(c.prepare)), Got(KeySignReadyMsg)], [Ready1])
  }

  function UpTo(k: nat): (r: seq<nat>)
    ensures |r| == k && forall i :: 0 <= i < k ==> r[i] == i
  {
    seq(k, i => i)
  }

  /** The first `k` goroutines have queued their streams and the others have not begun. */
  function AllReady(c: Config, k: nat): State {
    NewState(c).(
      legs := seq(|c.parties|, i => if i < k then QueuedLeg(c) else Leg(Begin, [], [])),
      readyChan := UpTo(k))
  }

  lemma InitReachable(c: Config)
    ensures Reachable(c, NewState(c))
  {
    assert Run(c, [NewState(c)]);
  }

  lemma StepReaches(c: Config, s: State, s': State, step: Step)
    requires Reachable(c, s) && NextStep(c, s, s', step)
    ensures Reachable(c, s')
  {
    ReachableStep(c, s, s');
  }

  lemma {:induction false} AllReadyReachable(c: Config, k: nat)
    requires k <= |c.parties|
    ensures Reachable(c, AllReady(c, k))
  {
    if k == 0 {
      InitReachable(c);
      assert AllReady(c, 0) == NewState(c);
    } else {
      AllReadyReachable(c, k - 1);
      OneMoreReady(c, k - 1);
    }
  }

  lemma MoveReaches(c: Config, s: State, k: nat, l': Leg, net: Net) returns (s': State)
    requires Reachable(c, s) && k < |s.legs| && Moves(c, s.signers, s.ctxDone, s.legs[k], l', net)
    ensures s' == s.(legs := s.legs[k := l']) && Reachable(c, s')
  {
    s' := s.(legs := s.legs[k := l']);
    assert s'.legs[k] == l';
    StepReaches(c, s, s', LegMoves(k, net));
  }

  lemma OneMoreReady(c: Config, k: nat)
    requires k < |c.parties| && Reachable(c, AllReady(c, k))
    ensures Reachable(c, AllReady(c, k + 1))
  {
    var p := Sent(KeySignPrepareMsg(c.prepare));
    assert [p] + [Got(KeySignReadyMsg)] == [p, Got(KeySignReadyMsg)] && [] + [p] == [p];
    var s := AllReady(c, k);
    s := MoveReaches(c, s, k, Leg(SendPrepare, [], []), Quiet);
    s := MoveReaches(c, s, k, Leg(AwaitReady, [p], []), Quiet);
    s := MoveReaches(c, s, k, Leg(PushReady, [p, Got(KeySignReadyMsg)], []), Delivers(KeySignReadyMsg));
    QueueingReaches(c, s, k);
  }

  lemma QueueingReaches(c: Config, s: State, k: nat)
    requires k < |c.parties| && Reachable(c, s)
    requires var l := Leg(PushReady, [Sent(KeySignPrepareMsg(c.prepare)), Got(KeySignReadyMsg)], []);
      s == AllReady(c, k).(legs := AllReady(c, k).legs[k := l])
    ensures Reachable(c, AllReady(c, k + 1))
  {
    var s' := s.(readyChan := s.readyChan + [k], legs := s.legs[k := QueuedLeg(c)]);
    assert s.legs[k].pushes + [Ready1] == [Ready1];
    StepReaches(c, s, s', LegPushes(k));
    assert s'.readyChan == UpTo(k + 1);
    assert s'.legs == AllReady(c, k + 1).legs;
  }

  /** With too few distinct parties the loop takes every ready stream and passes on none. */
  lemma {:induction false} TakingLeadsToStuck(c: Config, s: State) returns (s': State)
    requires Reachable(c, s) && s.main.Selecting? && !s.ctxDone && s.errChan == []
    requires |DistinctParties(c)| < Quorum(c)
    ensures Reachable(c, s') && s'.main.Selecting? && !SelectEnabled(s')
    decreases |s.readyChan|
  {
    if s.readyChan == [] {
      s' := s;
    } else {
      ReachableInv(c, s);
      EnteredInv(c, s);
      var next := AfterReady(c, s);
      MapStaysSmall(c, s);
      StepReaches(c, s, next, MainTakesReady);
      s' := TakingLeadsToStuck(c, next);
    }
  }

  lemma MapStaysSmall(c: Config, s: State)
    requires Inv(c, s) && ReadyToTake(c, s) && |DistinctParties(c)| < Quorum(c)
    ensures AfterReady(c, s) == Entered(c, s)
  {
    EnteredInv(c, s);
    var mid := Entered(c, s);
    forall p | p in mid.ready ensures p in DistinctParties(c) {
      assert Ids(c.parties)[mid.ready[p]] == p;
    }
    assert c.parties[s.readyChan[0]].id in mid.ready;
    SubsetCard(mid.ready.Keys, DistinctParties(c));
    assert |mid.ready| == |mid.ready.Keys|;
  }

  lemma StuckStateExists(c: Config) returns (s: State)
    requires |DistinctParties(c)| < Quorum(c)
    ensures Reachable(c, s) && s.main.Selecting? && !SelectEnabled(s)
  {
    AllReadyReachable(c, |c.parties|);
    var all := AllReady(c, |c.parties|);
    assert forall k :: 0 <= k < |all.legs| ==> all.legs[k] == QueuedLeg(c);
    var selecting := all.(main := Selecting);
    StepReaches(c, all, selecting, MainDialsDone);
    s := TakingLeadsToStuck(c, selecting);
  }

  /** The selection loop can never be stuck, waiting for nothing but the context, exactly when the
      party list names at least threshold + 1 (and at least one) distinct parties. */
  lemma SelectionNeverStuckIff(c: Config)
    ensures (forall s :: Reachable(c, s) && s.main.Selecting? ==> SelectEnabled(s))
       <==> |DistinctParties(c)| >= Quorum(c)
  {
    if |DistinctParties(c)| >= Quorum(c) {
      forall s | Reachable(c, s) && s.main.Selecting? ensures SelectEnabled(s) {
        SelectionNotStuck(c, s);
      }
    } else {
      var s := StuckStateExists(c);
    }
  }

  // ---- the quorum ----

  /** Past the selection the ready map holds threshold + 1 distinct parties, one if the threshold is
      negative, each under its own stream, and the signers are exactly those, in list order. */
  lemma QuorumSelected(c: Config, s: State)
    requires Reachable(c, s) && s.selected
    ensures |s.ready| == Quorum(c)
    ensures s.signers == Signers(c.parties, s.ready.Keys)
    ensures forall p :: p in s.ready ==> s.ready[p] < |c.parties| == |s.legs| && c.parties[s.ready[p]].id == p
    ensures forall p :: p in s.ready ==> Got(KeySignReadyMsg) in s.legs[s.ready[p]].acts
  {
    ReachableInv(c, s);
    forall p | p in s.ready ensures Got(KeySignReadyMsg) in s.legs[s.ready[p]].acts {
      ReadyInMap(c, s.signers, s.legs[s.ready[p]]);
    }
  }

  lemma ReadyInMap(c: Config, signers: seq<PartyID>, l: Leg)
    requires LegOk(c, signers, l) && InMap(l.pc)
    ensures Got(KeySignReadyMsg) in l.acts
  {
    assert l.acts != [] && |l.acts| >= 2 && l.acts[1] == Got(KeySignReadyMsg);
  }

  /** `sub` is what remains of `whole` after leaving some elements out. */
  ghost predicate Subsequence<T>(sub: seq<T>, whole: seq<T>) {
    if sub == [] then true
    else if whole == [] then false
    else (sub[0] == whole[0] && Subsequence(sub[1..], whole[1..])) || Subsequence(sub, whole[1..])
  }

  lemma {:induction false} SignersAreSubsequence(parties: seq<PartyID>, chosen: set<PartyId>)
    ensures Subsequence(Signers(parties, chosen), parties)
    ensures forall p :: p in Signers(parties, chosen) <==> p in parties && p.id in chosen
  {
    if parties != [] {
      var rest := Signers(parties[1..], chosen);
      SignersAreSubsequence(parties[1..], chosen);
      if parties[0].id in chosen {
        assert Signers(parties, chosen)[1..] == rest;
      } else {
        assert Signers(parties, chosen) == rest;
      }
      assert parties == [parties[0]] + parties[1..];
    }
  }

  /** No two entries of the list carry the same chosen id. */
  ghost predicate ChosenOnce(parties: seq<PartyID>, chosen: set<PartyId>) {
    forall i, j :: 0 <= i < j < |parties| && parties[i].id in chosen ==> parties[i].id != parties[j].id
  }

  lemma ChosenOnceCons(first: PartyID, rest: seq<PartyID>, chosen: set<PartyId>)
    ensures ChosenOnce([first] + rest, chosen) <==>
      ChosenOnce(rest, chosen) && (first.id in chosen ==> forall j :: 0 <= j < |rest| ==> rest[j].id != first.id)
  {
    var parties := [first] + rest;
    if ChosenOnce(parties, chosen) {
      forall i, j | 0 <= i < j < |rest| && rest[i].id in chosen ensures rest[i].id != rest[j].id {
        assert parties[i + 1].id != parties[j + 1].id;
      }
      forall j | 0 <= j < |rest| && first.id in chosen ensures rest[j].id != first.id {
        assert parties[0].id != parties[j + 1].id;
      }
    }
  }

  lemma {:induction false} SignersDistinctIff(parties: seq<PartyID>, chosen: set<PartyId>)
    ensures Distinct(Ids(Signers(parties, chosen))) <==> ChosenOnce(parties, chosen)
  {
    if parties != [] {
      var first, rest := parties[0], parties[1..];
      var sub := Signers(rest, chosen);
      SignersDistinctIff(rest, chosen);
      assert parties == [first] + rest;
      ChosenOnceCons(first, rest, chosen);
      if first.id in chosen {
        SignersAreSubsequence(rest, chosen);
        FirstRepeats(first, rest, sub, chosen);
      } else {
        assert Signers(parties, chosen) == sub;
      }
    }
  }

  lemma FirstRepeats(first: PartyID, rest: seq<PartyID>, sub: seq<PartyID>, chosen: set<PartyId>)
    requires first.id in chosen
    requires forall p :: p in sub <==> p in rest && p.id in chosen
    ensures Distinct(Ids([first] + sub)) <==> Distinct(Ids(sub)) && first.id !in Ids(sub)
    ensures first.id in Ids(sub) <==> exists j :: 0 <= j < |rest| && rest[j].id == first.id
  {
    assert Ids([first] + sub) == [first.id] + Ids(sub);
    DistinctCons(first.id, Ids(sub));
    if first.id in Ids(sub) {
      var k :| 0 <= k < |sub| && Ids(sub)[k] == first.id;
      assert sub[k] in rest;
    }
    if j :| 0 <= j < |rest| && rest[j].id == first.id {
      assert rest[j] in sub;
      var k :| 0 <= k < |sub| && sub[k] == rest[j];
      assert Ids(sub)[k] == first.id;
    }
  }

  lemma SignerIsChosen(parties: seq<PartyID>, chosen: set<PartyId>, p: PartyId)
    requires p in Ids(Signers(parties, chosen))
    ensures p in chosen
  {
    var signers := Signers(parties, chosen);
    SignersAreSubsequence(parties, chosen);
    var k :| 0 <= k < |Ids(signers)| && Ids(signers)[k] == p;
    assert signers[k] in signers;
  }

  lemma ChosenIsSigner(parties: seq<PartyID>, chosen: set<PartyId>, i: nat)
    requires i < |parties| && parties[i].id in chosen
    ensures parties[i].id in Ids(Signers(parties, chosen))
  {
    var signers := Signers(parties, chosen);
    SignersAreSubsequence(parties, chosen);
    assert parties[i] in signers;
    var k :| 0 <= k < |signers| && signers[k] == parties[i];
    assert Ids(signers)[k] == parties[i].id;
  }

  lemma IdsOfSigners(parties: seq<PartyID>, ready: map<PartyId, nat>)
    requires forall p :: p in ready ==> ready[p] < |parties| && parties[ready[p]].id == p
    ensures ToSet(Ids(Signers(parties, ready.Keys))) == ready.Keys
  {
    var ids := Ids(Signers(parties, ready.Keys));
    forall p | p in ready.Keys ensures p in ids {
      ChosenIsSigner(parties, ready.Keys, ready[p]);
    }
    forall p | p in ids ensures p in ready.Keys {
      SignerIsChosen(parties, ready.Keys, p);
    }
  }

  /** The signer list has exactly threshold + 1 members exactly when no selected party is listed
      twice; in particular for a list of distinct ids. */
  lemma SignerCountIff(c: Config, s: State)
    requires Reachable(c, s) && s.selected
    ensures |s.signers| == Quorum(c) <==> ChosenOnce(c.parties, s.ready.Keys)
    ensures Distinct(Ids(c.parties)) ==> |s.signers| == Quorum(c)
  {
    QuorumSelected(c, s);
    IdsOfSigners(c.parties, s.ready);
    DistinctCount(Ids(s.signers));
    SignersDistinctIff(c.parties, s.ready.Keys);
    assert |s.ready.Keys| == |s.ready|;
    if Distinct(Ids(c.parties)) {
      assert forall i, j :: 0 <= i < j < |c.parties| ==> Ids(c.parties)[i] != Ids(c.parties)[j];
    }
  }

  lemma SignersStep(parties: seq<PartyID>, i: nat, chosen: set<PartyId>)
    requires i < |parties|
    ensures Signers(parties[i..], chosen) ==
      (if parties[i].id in chosen then [parties[i]] else []) + Signers(parties[i + 1..], chosen)
  {
    assert parties[i..][1..] == parties[i + 1..];
  }

  /** The loop that lists the signers. */
  method CollectSigners(allPartyId: seq<PartyID>, ready: map<PartyId, nat>) returns (signPartyIds: seq<PartyID>)
    ensures signPartyIds == Signers(allPartyId, ready.Keys)
  {
    signPartyIds := [];
    var i := 0;
    while i < |allPartyId|
      invariant 0 <= i <= |allPartyId|
      invariant signPartyIds + Signers(allPartyId[i..], ready.Keys) == Signers(allPartyId, ready.Keys)
    {
      SignersStep(allPartyId, i, ready.Keys);
      if allPartyId[i].id in ready {
        signPartyIds := signPartyIds + [allPartyId[i]];
      }
      i := i + 1;
    }
  }
}
