/**
 * The runs that succeed. A KeyGen call can return success exactly when its party list is not empty,
 * repeats no id and names nodes only; the code checks none of this. The runs are built onto any state
 * in which the listed parties hold nothing in the way of the key.
 */
module KeyGenPossible {
  import opened Wrappers
  import opened TssTypes
  import opened SeqLemmas
  import opened KeyStore
  import opened Mailing
  import opened KeyGenModel
  import opened KeyGenInvariant
  import opened KeyGenTheorems

  // ---- runs of one session on top of a state ----

  ghost predicate Reachable(c: Config, s: State) {
    exists run :: Run(c, run) && run[|run| - 1] == s
  }

  lemma StepReaches(c: Config, s: State, s': State)
    requires Reachable(c, s) && Next(c, s, s')
    ensures Reachable(c, s')
  {
    var run :| Run(c, run) && run[|run| - 1] == s;
    var longer := run + [s'];
    forall k | 0 <= k < |longer| - 1 ensures Next(c, longer[k], longer[k + 1]) {
      if k < |run| - 1 {
        assert Next(c, run[k], run[k + 1]);
      }
    }
    assert Run(c, longer) && longer[|longer| - 1] == s';
  }

  /** A call to be carried to success: what it starts from, what it asks for, and its entries' time. */
  datatype Aim = Aim(start: State, sid: SessionId, req: Request, time: int)

  function AimEntry(a: Aim): EntryId {
    EntryId(a.req.keyId, a.sid)
  }

  function AimPrepare(a: Aim): KeyGenPrepare {
    PrepareOf(a.sid, a.req)
  }

  /** A step of the aimed session. */
  ghost predicate OwnStep(c: Config, sid: SessionId, s: State, s': State) {
    exists step: Step :: step.sid == sid && NextStep(c, s, s', step)
  }

  ghost predicate Path(c: Config, a: Aim, path: seq<State>) {
    && |path| > 0 && path[0] == a.start
    && forall k :: 0 <= k < |path| - 1 ==> OwnStep(c, a.sid, path[k], path[k + 1])
  }

  /** Steps of the aimed session lead from the start to here. */
  ghost predicate Leads(c: Config, a: Aim, s: State) {
    exists path :: Path(c, a, path) && path[|path| - 1] == s
  }

  lemma StartLeads(c: Config, a: Aim)
    ensures Leads(c, a, a.start)
  {
    assert Path(c, a, [a.start]);
  }

  lemma StepLeads(c: Config, a: Aim, s: State, s': State, step: Step)
    requires Leads(c, a, s) && NextStep(c, s, s', step) && step.sid == a.sid
    ensures Leads(c, a, s')
  {
    var path :| Path(c, a, path) && path[|path| - 1] == s;
    var longer := path + [s'];
    assert OwnStep(c, a.sid, s, s');
    forall k | 0 <= k < |longer| - 1 ensures OwnStep(c, a.sid, longer[k], longer[k + 1]) {
      if k < |path| - 1 {
        assert OwnStep(c, a.sid, path[k], path[k + 1]);
      }
    }
    assert Path(c, a, longer) && longer[|longer| - 1] == s';
  }

  /** What steps of one session leave alone: the other sessions, and the entries of other sessions. */
  ghost predicate Beside(sid: SessionId, s: State, s': State) {
    && s.stores.Keys == s'.stores.Keys && s.sessions.Keys <= s'.sessions.Keys <= s.sessions.Keys + {sid}
    && (forall o :: o in s.sessions && o != sid ==> s'.sessions[o] == s.sessions[o])
    && (forall n, f: EntryId :: n in s.stores && f.sessionId != sid ==>
          (f in s.stores[n] <==> f in s'.stores[n]) && (f in s.stores[n] ==> s'.stores[n][f] == s.stores[n][f]))
  }

  lemma BesideTwice(sid: SessionId, s: State, mid: State, s': State)
    requires Beside(sid, s, mid) && Beside(sid, mid, s')
    ensures Beside(sid, s, s')
  {
  }

  lemma StepBeside(c: Config, s: State, s': State, step: Step)
    requires Reachable(c, s) && NextStep(c, s, s', step)
    ensures Beside(step.sid, s, s')
  {
    var run :| Run(c, run) && run[|run| - 1] == s;
    forall n, f: EntryId | n in s.stores && f.sessionId != step.sid
      ensures n in s'.stores
      ensures (f in s.stores[n] <==> f in s'.stores[n]) && (f in s.stores[n] ==> s'.stores[n][f] == s.stores[n][f])
    {
      StepTouchesOwnEntry(c, run, |run| - 1, s', step, n, f);
    }
    StepKeepsNodes(c, s, s', step);
  }

  lemma StepKeepsNodes(c: Config, s: State, s': State, step: Step)
    requires NextStep(c, s, s', step)
    ensures s'.stores.Keys == s.stores.Keys
    ensures s.sessions.Keys <= s'.sessions.Keys <= s.sessions.Keys + {step.sid}
    ensures forall o :: o in s.sessions && o != step.sid ==> s'.sessions[o] == s.sessions[o]
  {
  }

  lemma {:induction false} PathBeside(c: Config, a: Aim, path: seq<State>, k: nat)
    requires Reachable(c, a.start) && Path(c, a, path) && k < |path|
    ensures Reachable(c, path[k]) && Beside(a.sid, a.start, path[k])
  {
    if k > 0 {
      PathBeside(c, a, path, k - 1);
      assert OwnStep(c, a.sid, path[k - 1], path[k - 1 + 1]);
      var step: Step :| step.sid == a.sid && NextStep(c, path[k - 1], path[k], step);
      assert Next(c, path[k - 1], path[k]);
      StepReaches(c, path[k - 1], path[k]);
      StepBeside(c, path[k - 1], path[k], step);
      BesideTwice(a.sid, a.start, path[k - 1], path[k]);
    }
  }

  lemma LeadsBeside(c: Config, a: Aim, s: State)
    requires Reachable(c, a.start) && Leads(c, a, s)
    ensures Reachable(c, s) && Beside(a.sid, a.start, s)
  {
    var path :| Path(c, a, path) && path[|path| - 1] == s;
    PathBeside(c, a, path, |path| - 1);
  }

  // ---- steps of one leg ----

  /** The state with another leg of the aimed session. */
  function WithLeg(s: State, sid: SessionId, i: nat, l: Leg): State
    requires sid in s.sessions && i < |s.sessions[sid].legs|
  {
    s.(sessions := s.sessions[sid := s.sessions[sid].(legs := s.sessions[sid].legs[i := l])])
  }

  lemma WithLegTwice(s: State, sid: SessionId, i: nat, l: Leg, l': Leg)
    requires sid in s.sessions && i < |s.sessions[sid].legs|
    ensures WithLeg(WithLeg(s, sid, i, l), sid, i, l') == WithLeg(s, sid, i, l')
  {
    var legs := s.sessions[sid].legs;
    assert legs[i := l][i := l'] == legs[i := l'];
    assert WithLeg(WithLeg(s, sid, i, l), sid, i, l').sessions == WithLeg(s, sid, i, l').sessions;
  }

  ghost predicate Aimed(a: Aim, s: State) {
    && a.sid in s.sessions && s.sessions[a.sid].req == a.req
    && |s.sessions[a.sid].legs| == |a.req.parties|
  }

  /** From `s` the aimed session's leg `i` may become `l`, the stores being `stores`. */
  ghost predicate CanBe(c: Config, a: Aim, s: State, i: nat, stores: map<PartyId, Store>, l: Leg) {
    && Aimed(a, s) && i < |a.req.parties|
    && Leads(c, a, WithLeg(s, a.sid, i, l).(stores := stores))
  }

  /** The leg after a move of its goroutine. */
  lemma GoroutineTo(c: Config, a: Aim, s: State, i: nat, stores: map<PartyId, Store>, l: Leg, to: Leg)
    returns (l': Leg)
    requires CanBe(c, a, s, i, stores, l) && GoroutineStep(c, AimPrepare(a), a.req.parties[i].id, l, to)
    ensures l' == to && CanBe(c, a, s, i, stores, l')
  {
    l' := to;
    WithLegTwice(s, a.sid, i, l, l');
    StepLeads(c, a, WithLeg(s, a.sid, i, l).(stores := stores), WithLeg(s, a.sid, i, l').(stores := stores),
              GoroutineMoves(a.sid, i));
  }

  /** The leg after a move of its handler. */
  lemma HandlerTo(c: Config, a: Aim, s: State, i: nat, stores: map<PartyId, Store>, l: Leg, to: Leg)
    returns (l': Leg)
    requires CanBe(c, a, s, i, stores, l) && HandlerStep(c, a.req.parties[i].id, l, to)
    ensures l' == to && CanBe(c, a, s, i, stores, l')
  {
    l' := to;
    WithLegTwice(s, a.sid, i, l, l');
    StepLeads(c, a, WithLeg(s, a.sid, i, l).(stores := stores), WithLeg(s, a.sid, i, l').(stores := stores),
              HandlerMoves(a.sid, i));
  }

  /** The leg after a storage call of its handler. */
  lemma StoreTo(c: Config, a: Aim, s: State, i: nat, stores: map<PartyId, Store>, l: Leg, to: Leg,
                st': Store, op: StoreOp)
    returns (l': Leg)
    requires CanBe(c, a, s, i, stores, l)
    requires var id := a.req.parties[i].id; id in stores && StoreStep(id, l, to, stores[id], st', op, true)
    ensures l' == to && CanBe(c, a, s, i, stores[a.req.parties[i].id := st'], l')
  {
    l' := to;
    WithLegTwice(s, a.sid, i, l, l');
    var stores' := stores[a.req.parties[i].id := st'];
    StepLeads(c, a, WithLeg(s, a.sid, i, l).(stores := stores), WithLeg(s, a.sid, i, l').(stores := stores'),
              HandlerStores(a.sid, i, op, true));
  }

  lemma LegIs(c: Config, a: Aim, s: State, i: nat)
    requires Leads(c, a, s) && Aimed(a, s) && i < |a.req.parties|
    ensures CanBe(c, a, s, i, s.stores, s.sessions[a.sid].legs[i])
  {
    var l := s.sessions[a.sid].legs[i];
    assert s.sessions[a.sid].legs[i := l] == s.sessions[a.sid].legs;
    assert WithLeg(s, a.sid, i, l).sessions == s.sessions;
    assert WithLeg(s, a.sid, i, l).(stores := s.stores) == s;
  }

  // ---- one leg up to Ready, and from Start to Finish ----

  /** A leg whose participant is ready and whose goroutine is at `pc`. */
  function ReadyLeg(c: Config, p: KeyGenPrepare, id: PartyId, pc: Goroutine): Leg {
    Leg(pc, AwaitStart, [KeyGenPrepareMsg(p)], 1, [KeyGenReadyMsg], 1, [KeyGenPrepareMsg(p), KeyGenReadyMsg],
        Some(p), id !in c.dev, None, multiset{}, NO_TRAIL)
  }

  const SOME_KEY: Bytes := [1]

  function SuccessMsg(): KeyGenFinish {
    KeyGenFinish(true, [], SOME_KEY)
  }

  /** A leg whose participant has succeeded and whose goroutine is at `pc`. */
  function SuccessLeg(c: Config, p: KeyGenPrepare, id: PartyId, pc: Goroutine): Leg {
    Leg(pc, Over, [KeyGenPrepareMsg(p), KeyGenStartMsg], 2, [KeyGenReadyMsg, KeyGenFinishMsg(SuccessMsg())], 2,
        [KeyGenPrepareMsg(p), KeyGenReadyMsg, KeyGenStartMsg, KeyGenFinishMsg(SuccessMsg())],
        Some(p), id !in c.dev, Some(SOME_KEY), multiset{}, NO_TRAIL)
  }

  function Pending(a: Aim): KeyData {
    PendingEntry(AimEntry(a), a.req.threshold, a.req.parties, a.time)
  }

  /** The participant has read Prepare. */
  function HeardLeg(p: KeyGenPrepare): Leg {
    Leg(AwaitReady, CheckStore, [KeyGenPrepareMsg(p)], 1, [], 0, [KeyGenPrepareMsg(p)],
        Some(p), false, None, multiset{}, NO_TRAIL)
  }

  lemma LegHears(c: Config, a: Aim, s: State, i: nat)
    requires Leads(c, a, s) && Aimed(a, s) && i < |a.req.parties|
    requires s.sessions[a.sid].legs[i] == NewLeg() && a.req.parties[i].id in c.nodes
    ensures CanBe(c, a, s, i, s.stores, HeardLeg(AimPrepare(a)))
  {
    var p := AimPrepare(a);
    var l := NewLeg();
    LegIs(c, a, s, i);
    l := GoroutineTo(c, a, s, i, s.stores, l, l.(pc := SendPrepare, handler := AwaitPrepare));
    l := GoroutineTo(c, a, s, i, s.stores, l, Down(l, KeyGenPrepareMsg(p)).(pc := AwaitReady));
    l := HandlerTo(c, a, s, i, s.stores, l, l.(downRead := 1, prepare := Some(p), handler := CheckStore));
    assert l == HeardLeg(p);
  }

  lemma LegBecomesReady(c: Config, a: Aim, s: State, i: nat) returns (stores: map<PartyId, Store>)
    requires Leads(c, a, s) && Aimed(a, s) && i < |a.req.parties| && s.sessions[a.sid].legs[i] == NewLeg()
    requires var id := a.req.parties[i].id; id in c.nodes && id in s.stores && !LiveInScan(s.stores[id], a.req.keyId)
    ensures var id := a.req.parties[i].id;
      && stores == s.stores[id := s.stores[id][AimEntry(a) := Pending(a)]]
      && CanBe(c, a, s, i, stores, ReadyLeg(c, AimPrepare(a), id, OfferReady))
  {
    var id, p, e := a.req.parties[i].id, AimPrepare(a), AimEntry(a);
    LegHears(c, a, s, i);
    var l := HeardLeg(p);
    stores := s.stores[id := s.stores[id][e := Pending(a)]];
    l := StoreTo(c, a, s, i, s.stores, l, l.(handler := Validating), stores[id],
                 Begin(e, a.req.threshold, a.req.parties, a.time));
    l := HandlerTo(c, a, s, i, stores, l, l.(handler := SendReady, accepted := id !in c.dev));
    l := HandlerTo(c, a, s, i, stores, l, Up(l, KeyGenReadyMsg).(handler := AwaitStart));
    l := GoroutineTo(c, a, s, i, stores, l, l.(upRead := 1, pc := OfferReady));
    assert l == ReadyLeg(c, p, id, OfferReady);
  }

  /** The node holds the aimed session's entry, created at the aimed time. */
  predicate HoldsAimed(stores: map<PartyId, Store>, a: Aim, id: PartyId) {
    id in stores && AimEntry(a) in stores[id] && stores[id][AimEntry(a)].createdTime == a.time
  }

  predicate HoldsPending(stores: map<PartyId, Store>, a: Aim, id: PartyId) {
    HoldsAimed(stores, a, id) && stores[id][AimEntry(a)].status == StatusPending
  }

  lemma LegSucceeds(c: Config, a: Aim, s: State, i: nat) returns (stores: map<PartyId, Store>)
    requires Leads(c, a, s) && Aimed(a, s) && i < |a.req.parties|
    requires var id := a.req.parties[i].id;
      s.sessions[a.sid].legs[i] == ReadyLeg(c, AimPrepare(a), id, SendStart) && HoldsPending(s.stores, a, id)
    ensures var id := a.req.parties[i].id;
      && HoldsAimed(stores, a, id) && stores == s.stores[id := stores[id]]
      && CanBe(c, a, s, i, stores, SuccessLeg(c, AimPrepare(a), id, OfferFinish(SuccessMsg())))
  {
    var id, p := a.req.parties[i].id, AimPrepare(a);
    var l := ReadyLeg(c, p, id, SendStart);
    LegIs(c, a, s, i);
    assert Ids(a.req.parties)[i] == id;
    l := GoroutineTo(c, a, s, i, s.stores, l, Down(l, KeyGenStartMsg).(pc := AwaitFinish));
    l := HandlerTo(c, a, s, i, s.stores, l, l.(downRead := 2, handler := Running));
    l, stores := LegCommits(c, a, s, i, l);
    l := HandlerTo(c, a, s, i, stores, l, Up(l, KeyGenFinishMsg(SuccessMsg())).(handler := Over));
    l := GoroutineTo(c, a, s, i, stores, l, l.(upRead := 2, pc := OfferFinish(SuccessMsg())));
    assert l == SuccessLeg(c, p, id, OfferFinish(SuccessMsg()));
  }

  lemma LegCommits(c: Config, a: Aim, s: State, i: nat, l: Leg) returns (l': Leg, stores: map<PartyId, Store>)
    requires CanBe(c, a, s, i, s.stores, l) && l.handler.Running? && l.prepare == Some(AimPrepare(a))
    requires HoldsPending(s.stores, a, a.req.parties[i].id)
    ensures l' == l.(handler := Finishing(SuccessMsg()), produced := Some(SOME_KEY))
    ensures var id := a.req.parties[i].id;
      HoldsAimed(stores, a, id) && stores == s.stores[id := stores[id]] && CanBe(c, a, s, i, stores, l')
  {
    var id, e := a.req.parties[i].id, AimEntry(a);
    var st := s.stores[id];
    var st' := st[e := st[e].(status := StatusReady, saveDataJson := [1], updatedTime := 0, pubkey := SOME_KEY)];
    stores := s.stores[id := st'];
    l' := StoreTo(c, a, s, i, s.stores, l, l.(handler := Finishing(SuccessMsg()), produced := Some(SOME_KEY)), st',
                  Commit(e, SOME_KEY, [1], 0));
  }

  // ---- all legs ----

  ghost predicate Servable(c: Config, req: Request) {
    && 0 < |req.parties| && Distinct(Ids(req.parties))
    && forall i :: 0 <= i < |req.parties| ==> req.parties[i].id in c.nodes
  }

  /** The listed parties hold nothing that a generation of the key would meet. */
  ghost predicate Clear(stores: map<PartyId, Store>, req: Request) {
    forall j :: 0 <= j < |req.parties| ==>
      req.parties[j].id in stores && !LiveInScan(stores[req.parties[j].id], req.keyId)
  }

  /** The ready map after the first `k` listed parties were taken. */
  ghost predicate MapUpTo(ids: seq<PartyId>, ready: map<PartyId, nat>, k: nat) {
    && k <= |ids| && |ready| == k
    && (forall p :: p in ready ==> ready[p] < k && ids[ready[p]] == p)
    && forall j: nat :: j < k ==> ids[j] in ready && ready[ids[j]] == j
  }

  lemma MapGrows(ids: seq<PartyId>, ready: map<PartyId, nat>, k: nat)
    requires MapUpTo(ids, ready, k) && k < |ids| && Distinct(ids)
    ensures MapUpTo(ids, ready[ids[k] := k], k + 1)
  {
    assert ids[k] !in ready;
  }

  /** The first `k` parties have stored the request and the others hold nothing in its way. */
  ghost predicate StoredUpTo(stores: map<PartyId, Store>, a: Aim, k: nat) {
    && (forall j :: 0 <= j < k && j < |a.req.parties| ==> HoldsPending(stores, a, a.req.parties[j].id))
    && (forall j :: k <= j < |a.req.parties| ==>
          a.req.parties[j].id in stores && !LiveInScan(stores[a.req.parties[j].id], a.req.keyId))
  }

  lemma DifferentIds(parties: seq<PartyID>, k: nat)
    requires Distinct(Ids(parties)) && k < |parties|
    ensures forall j :: 0 <= j < |parties| && j != k ==> parties[j].id != parties[k].id
  {
    forall j | 0 <= j < |parties| && j != k ensures parties[j].id != parties[k].id {
      assert Ids(parties)[j] != Ids(parties)[k];
    }
  }

  lemma OneMoreStored(stores: map<PartyId, Store>, a: Aim, k: nat)
    requires k < |a.req.parties| && Distinct(Ids(a.req.parties)) && StoredUpTo(stores, a, k)
    ensures var id := a.req.parties[k].id;
      StoredUpTo(stores[id := stores[id][AimEntry(a) := Pending(a)]], a, k + 1)
  {
    DifferentIds(a.req.parties, k);
  }

  /** The first `k` parties are ready and taken, and the others have not begun. */
  ghost predicate LegsUpTo(c: Config, legs: seq<Leg>, a: Aim, k: nat) {
    && |legs| == |a.req.parties|
    && (forall j :: 0 <= j < k && j < |legs| ==> legs[j] == ReadyLeg(c, AimPrepare(a), a.req.parties[j].id, Parked))
    && (forall j :: k <= j < |legs| ==> legs[j] == NewLeg())
  }

  /** The first `k` parties are ready and in the map, the others have not begun. */
  ghost predicate ReadyUpTo(c: Config, a: Aim, s: State, k: nat) {
    && Leads(c, a, s) && Aimed(a, s) && StoredUpTo(s.stores, a, k)
    && var ses := s.sessions[a.sid];
       && LegsUpTo(c, ses.legs, a, k)
       && ses.main.WaitReady? && MapUpTo(Ids(a.req.parties), ses.main.ready, k)
  }

  /** As before, and party `k` is ready too and offers it to main. */
  ghost predicate ReadyOffered(c: Config, a: Aim, s: State, k: nat) {
    && Leads(c, a, s) && Aimed(a, s) && StoredUpTo(s.stores, a, k + 1)
    && var ses := s.sessions[a.sid];
       && k < |a.req.parties| && ses.legs[k] == ReadyLeg(c, AimPrepare(a), a.req.parties[k].id, OfferReady)
       && LegsUpTo(c, ses.legs[k := ses.legs[k].(pc := Parked)], a, k + 1)
       && ses.main.WaitReady? && MapUpTo(Ids(a.req.parties), ses.main.ready, k)
  }

  ghost predicate AllHold(stores: map<PartyId, Store>, a: Aim) {
    forall j :: 0 <= j < |a.req.parties| ==> HoldsAimed(stores, a, a.req.parties[j].id)
  }

  /** From the `k`-th on, the parties are started and have yet to commit. */
  ghost predicate StartedFrom(c: Config, legs: seq<Leg>, stores: map<PartyId, Store>, a: Aim, k: nat) {
    && |legs| == |a.req.parties|
    && forall j :: k <= j < |legs| ==>
         && legs[j] == ReadyLeg(c, AimPrepare(a), a.req.parties[j].id, SendStart)
         && HoldsPending(stores, a, a.req.parties[j].id)
  }

  /** All are started and the first `k` have succeeded and are counted. */
  ghost predicate SuccessUpTo(c: Config, a: Aim, s: State, k: nat) {
    && Leads(c, a, s) && Aimed(a, s) && AllHold(s.stores, a)
    && var ses := s.sessions[a.sid];
       && ses.main.WaitFinish? && ses.main.finishCnt == k && |ses.main.ready| == |a.req.parties|
       && StartedFrom(c, ses.legs, s.stores, a, k)
  }

  /** The aimed call has returned success, and every listed party holds its entry. */
  ghost predicate Achieved(c: Config, a: Aim, s: State) {
    && Leads(c, a, s) && SucceededAt(s, a.sid, SOME_KEY) && s.sessions[a.sid].req == a.req
    && AllHold(s.stores, a)
  }

  lemma StartReady(c: Config, a: Aim) returns (s: State)
    requires a.sid !in a.start.sessions && ColonFree(a.sid) && |a.req.parties| <= MAX_INT32
    requires Clear(a.start.stores, a.req)
    ensures ReadyUpTo(c, a, s, 0)
  {
    StartLeads(c, a);
    s := a.start.(sessions := a.start.sessions[a.sid := NewSession(a.req)]);
    StepLeads(c, a, a.start, s, StartSession(a.sid, a.req));
  }

  lemma NextOffers(c: Config, a: Aim, s: State, k: nat) returns (s': State)
    requires k < |a.req.parties| && Servable(c, a.req) && ReadyUpTo(c, a, s, k)
    ensures ReadyOffered(c, a, s', k)
  {
    var l := ReadyLeg(c, AimPrepare(a), a.req.parties[k].id, OfferReady);
    var stores := LegBecomesReady(c, a, s, k);
    s' := WithLeg(s, a.sid, k, l).(stores := stores);
    OneMoreStored(s.stores, a, k);
    OneMoreLeg(c, s.sessions[a.sid].legs, a, k);
  }

  lemma OneMoreLeg(c: Config, legs: seq<Leg>, a: Aim, k: nat)
    requires k < |a.req.parties| && LegsUpTo(c, legs, a, k)
    ensures var l := ReadyLeg(c, AimPrepare(a), a.req.parties[k].id, OfferReady);
      LegsUpTo(c, legs[k := l][k := l.(pc := Parked)], a, k + 1)
  {
  }

  lemma NotLastTaken(c: Config, a: Aim, s: State, k: nat) returns (s': State)
    requires k + 1 < |a.req.parties| && Distinct(Ids(a.req.parties)) && ReadyOffered(c, a, s, k)
    ensures ReadyUpTo(c, a, s', k + 1)
  {
    var ses := s.sessions[a.sid];
    MapGrows(Ids(a.req.parties), ses.main.ready, k);
    var ses' := ses.(main := WaitReady(ses.main.ready[a.req.parties[k].id := k]),
                     legs := ses.legs[k := ses.legs[k].(pc := Parked)]);
    s' := s.(sessions := s.sessions[a.sid := ses']);
    StepLeads(c, a, s, s', MainTakesReady(a.sid, k));
  }

  /** Taking the last ready starts everyone. */
  lemma LastTaken(c: Config, a: Aim, s: State, k: nat) returns (s': State)
    requires k + 1 == |a.req.parties| && Distinct(Ids(a.req.parties)) && ReadyOffered(c, a, s, k)
    ensures SuccessUpTo(c, a, s', 0)
  {
    var ses := s.sessions[a.sid];
    MapGrows(Ids(a.req.parties), ses.main.ready, k);
    var ready, legs := ses.main.ready[a.req.parties[k].id := k], ses.legs[k := ses.legs[k].(pc := Parked)];
    var ses' := ses.(main := WaitFinish(ready, 0), legs := FanOut(legs, ready));
    s' := s.(sessions := s.sessions[a.sid := ses']);
    StepLeads(c, a, s, s', MainTakesReady(a.sid, k));
    AllStart(c, legs, ready, a);
  }

  lemma AllStart(c: Config, legs: seq<Leg>, ready: map<PartyId, nat>, a: Aim)
    requires LegsUpTo(c, legs, a, |a.req.parties|) && MapUpTo(Ids(a.req.parties), ready, |a.req.parties|)
    ensures forall j :: 0 <= j < |a.req.parties| ==>
      FanOut(legs, ready)[j] == ReadyLeg(c, AimPrepare(a), a.req.parties[j].id, SendStart)
  {
    forall j: nat | j < |a.req.parties| ensures j in ready.Values {
      assert Ids(a.req.parties)[j] in ready && ready[Ids(a.req.parties)[j]] == j;
    }
  }

  lemma {:induction false} EveryoneReady(c: Config, a: Aim, s: State, k: nat) returns (s': State)
    requires k < |a.req.parties| && Servable(c, a.req) && ReadyUpTo(c, a, s, k)
    ensures SuccessUpTo(c, a, s', 0)
    decreases |a.req.parties| - k
  {
    var mid := NextOffers(c, a, s, k);
    if k + 1 < |a.req.parties| {
      var next := NotLastTaken(c, a, mid, k);
      s' := EveryoneReady(c, a, next, k + 1);
    } else {
      s' := LastTaken(c, a, mid, k);
    }
  }

  /** Party `k` succeeds and offers its finish to main. */
  lemma NextFinishes(c: Config, a: Aim, s: State, k: nat) returns (s': State)
    requires k < |a.req.parties| && Distinct(Ids(a.req.parties)) && SuccessUpTo(c, a, s, k)
    ensures Leads(c, a, s') && Aimed(a, s') && AllHold(s'.stores, a)
    ensures s'.sessions[a.sid].main == s.sessions[a.sid].main
    ensures s'.sessions[a.sid].legs[k].pc == OfferFinish(SuccessMsg())
    ensures StartedFrom(c, s'.sessions[a.sid].legs, s'.stores, a, k + 1)
  {
    var id := a.req.parties[k].id;
    var stores := LegSucceeds(c, a, s, k);
    s' := WithLeg(s, a.sid, k, SuccessLeg(c, AimPrepare(a), id, OfferFinish(SuccessMsg()))).(stores := stores);
    DifferentIds(a.req.parties, k);
  }

  /** One more party succeeds and is counted; the last one makes the call return. */
  lemma NextSucceeds(c: Config, a: Aim, s: State, k: nat) returns (s': State)
    requires k < |a.req.parties| && Distinct(Ids(a.req.parties)) && SuccessUpTo(c, a, s, k)
    ensures k + 1 < |a.req.parties| ==> SuccessUpTo(c, a, s', k + 1)
    ensures k + 1 == |a.req.parties| ==> Achieved(c, a, s')
  {
    var mid := NextFinishes(c, a, s, k);
    var ses := mid.sessions[a.sid];
    var ready := ses.main.ready;
    var main := if k + 1 == |a.req.parties| then Returned(ready, Success(SOME_KEY)) else WaitFinish(ready, k + 1);
    var ses' := ses.(main := main, legs := ses.legs[k := ses.legs[k].(pc := FinishTaken)]);
    s' := mid.(sessions := mid.sessions[a.sid := ses']);
    StepLeads(c, a, mid, s', MainTakesFinish(a.sid, k));
  }

  lemma {:induction false} EveryoneSucceeds(c: Config, a: Aim, s: State, k: nat) returns (s': State)
    requires k < |a.req.parties| && Servable(c, a.req) && SuccessUpTo(c, a, s, k)
    ensures Achieved(c, a, s')
    decreases |a.req.parties| - k
  {
    s' := NextSucceeds(c, a, s, k);
    if k + 1 < |a.req.parties| {
      s' := EveryoneSucceeds(c, a, s', k + 1);
    }
  }

  /** A new call for a servable request, whose parties hold nothing in its way, can succeed from any
      reachable state, with everything else as it was. */
  lemma CallSucceeds(c: Config, a: Aim) returns (s: State)
    requires Reachable(c, a.start) && a.sid !in a.start.sessions && ColonFree(a.sid) && |a.req.parties| <= MAX_INT32
    requires Servable(c, a.req) && Clear(a.start.stores, a.req)
    ensures Reachable(c, s) && SucceededAt(s, a.sid, SOME_KEY) && s.sessions[a.sid].req == a.req
    ensures AllHold(s.stores, a) && Beside(a.sid, a.start, s)
  {
    s := StartReady(c, a);
    s := EveryoneReady(c, a, s, 0);
    s := EveryoneSucceeds(c, a, s, 0);
    LeadsBeside(c, a, s);
  }

  function NothingYet(c: Config): State {
    State(map n | n in c.nodes :: map[], map[])
  }

  // ---- exactly when success is possible ----

  /** Some run ends with the call for this request having returned success. */
  ghost predicate CanSucceed(c: Config, sid: SessionId, req: Request) {
    exists s, pubkey :: Reachable(c, s) && SucceededAt(s, sid, pubkey) && s.sessions[sid].req == req
  }

  lemma SuccessIsServable(c: Config, s: State, sid: SessionId, pubkey: Bytes)
    requires Reachable(c, s) && SucceededAt(s, sid, pubkey)
    ensures Servable(c, s.sessions[sid].req)
  {
    var run :| Run(c, run) && run[|run| - 1] == s;
    var n, req := |run| - 1, s.sessions[sid].req;
    SuccessIsDistinct(c, run, n, sid, pubkey);
    CommitAgreement(c, run, n, n, sid, pubkey);
    RunInv(c, run, n);
    forall i: nat | i < |req.parties| ensures req.parties[i].id in c.nodes {
      assert HoldsSomeKey(run[n], sid, req, i);
    }
  }

  /** KeyGen can return success for a request exactly when its party list is not empty, repeats no id
      and names nodes only; whatever the threshold is, which the code never looks at. */
  lemma SuccessPossibleIff(c: Config, sid: SessionId, req: Request)
    requires ColonFree(sid) && |req.parties| <= MAX_INT32
    ensures CanSucceed(c, sid, req) <==> Servable(c, req)
  {
    if Servable(c, req) {
      assert Run(c, [NothingYet(c)]);
      var s := CallSucceeds(c, Aim(NothingYet(c), sid, req, 0));
    }
    if CanSucceed(c, sid, req) {
      var s, pubkey :| Reachable(c, s) && SucceededAt(s, sid, pubkey) && s.sessions[sid].req == req;
      SuccessIsServable(c, s, sid, pubkey);
    }
  }
}
