/**
 * Which later calls can displace a generated key in look-ups: those for key ids that continue it with
 * a colon, and no others.
 */
module KeyGenLookup {
  import opened Wrappers
  import opened TssTypes
  import opened KeyStore
  import opened KeyGenModel
  import opened KeyGenInvariant
  import opened KeyGenTheorems
  import opened KeyGenPossible

  /** Every call so far asked for one of these two keys. */
  ghost predicate AsksOnlyFor(s: State, keyId: KeyId, other: KeyId) {
    forall sid :: sid in s.sessions ==> s.sessions[sid].req.keyId == keyId || s.sessions[sid].req.keyId == other
  }

  /** What a look-up of the requested key at a listed party may find in this state. */
  ghost predicate MayFind(s: State, req: Request, k: nat, found: Option<KeyData>) {
    && k < |req.parties| && req.parties[k].id in s.stores
    && LatestReady(s.stores[req.parties[k].id], req.keyId, found)
  }

  /** The look-up found the session, as requested. */
  predicate IsSession(found: Option<KeyData>, sid: SessionId, req: Request) {
    && found.Some? && found.value.keyId == req.keyId && found.value.keySessionId == sid
    && found.value.threshold == req.threshold && found.value.allPartyId == req.parties
  }

  /** In every state after the call's success in which only these two keys were asked for, every
      look-up at a listed party finds the call's session. */
  ghost predicate LookupStable(c: Config, sid: SessionId, req: Request, other: KeyId) {
    forall s, pubkey, k: nat, found ::
      Reachable(c, s) && SucceededAt(s, sid, pubkey) && s.sessions[sid].req == req
      && AsksOnlyFor(s, req.keyId, other) && MayFind(s, req, k, found)
      ==> IsSession(found, sid, req)
  }

  lemma FindsIt(c: Config, s: State, sid: SessionId, req: Request, other: KeyId, pubkey: Bytes, k: nat,
                found: Option<KeyData>)
    requires Reachable(c, s) && SucceededAt(s, sid, pubkey) && s.sessions[sid].req == req
    requires AsksOnlyFor(s, req.keyId, other) && MayFind(s, req, k, found)
    requires !(req.keyId + [COLON] <= other)
    ensures IsSession(found, sid, req)
  {
    var run :| Run(c, run) && run[|run| - 1] == s;
    assert NoExtendingRequest(s, req.keyId);
    StableLookup(c, run, |run| - 1, |run| - 1, sid, pubkey, k, found);
  }

  /** While only calls for the key itself were made, nothing is in the way of an extending key id. */
  lemma ExtensionIsClear(c: Config, s: State, req: Request, other: KeyId)
    requires Reachable(c, s) && Servable(c, req) && req.keyId + [COLON] <= other
    requires AsksOnlyFor(s, req.keyId, req.keyId)
    ensures Clear(s.stores, req.(keyId := other))
  {
    var run :| Run(c, run) && run[|run| - 1] == s;
    RunInv(c, run, |run| - 1);
    forall j, e | 0 <= j < |req.parties| && e in s.stores[req.parties[j].id] ensures !InScan(other, e.keyId) {
      assert EntryTraced(s.sessions, req.parties[j].id, e, s.stores[req.parties[j].id][e]);
      assert |e.keyId| < |other|;
    }
  }

  /** A session id that differs from a given one. */
  function AnotherSession(sid: SessionId): (r: SessionId)
    ensures r != sid && ColonFree(r)
  {
    if sid == [] then [48] else []
  }

  /** A call on its own, from the beginning. */
  lemma FirstSucceeds(c: Config, a: Aim) returns (s: State)
    requires a.start == NothingYet(c) && ColonFree(a.sid) && |a.req.parties| <= MAX_INT32 && Servable(c, a.req)
    ensures Reachable(c, s) && SucceededAt(s, a.sid, SOME_KEY) && s.sessions[a.sid].req == a.req
    ensures AllHold(s.stores, a) && s.sessions.Keys == {a.sid}
  {
    assert Run(c, [NothingYet(c)]);
    s := CallSucceeds(c, a);
  }

  /** What the first call left is still there when the second has succeeded. */
  lemma FirstStays(s1: State, s: State, first: Aim, second: Aim)
    requires Beside(second.sid, s1, s) && first.sid != second.sid && s1.sessions.Keys == {first.sid}
    requires SucceededAt(s1, first.sid, SOME_KEY) && s1.sessions[first.sid].req == first.req
    requires AllHold(s1.stores, first)
    ensures SucceededAt(s, first.sid, SOME_KEY) && s.sessions[first.sid].req == first.req
    ensures AllHold(s.stores, first) && s.sessions.Keys <= {first.sid, second.sid}
  {
    forall j | 0 <= j < |first.req.parties| ensures HoldsAimed(s.stores, first, first.req.parties[j].id) {
      assert HoldsAimed(s1.stores, first, first.req.parties[j].id);
    }
  }

  /** The first call succeeds, then one for an extending key id with the same parties, later. */
  lemma Displaced(c: Config, sid: SessionId, req: Request, other: KeyId)
    returns (s: State, found: Option<KeyData>)
    requires ColonFree(sid) && |req.parties| <= MAX_INT32 && Servable(c, req) && req.keyId + [COLON] <= other
    ensures Reachable(c, s) && SucceededAt(s, sid, SOME_KEY) && s.sessions[sid].req == req
    ensures AsksOnlyFor(s, req.keyId, other) && MayFind(s, req, 0, found) && !IsSession(found, sid, req)
  {
    var first := Aim(NothingYet(c), sid, req, 0);
    var s1 := FirstSucceeds(c, first);
    ExtensionIsClear(c, s1, req, other);
    var second := Aim(s1, AnotherSession(sid), req.(keyId := other), 1);
    s := CallSucceeds(c, second);
    FirstStays(s1, s, first, second);
    found := NewerIsFound(c, s, first, second);
  }

  lemma NewerIsFound(c: Config, s: State, first: Aim, second: Aim) returns (found: Option<KeyData>)
    requires Reachable(c, s) && SucceededAt(s, first.sid, SOME_KEY) && SucceededAt(s, second.sid, SOME_KEY)
    requires s.sessions[first.sid].req == first.req && s.sessions[second.sid].req == second.req
    requires second.req == first.req.(keyId := second.req.keyId) && first.req.keyId + [COLON] <= second.req.keyId
    requires |first.req.parties| > 0 && first.time < second.time
    requires AllHold(s.stores, first) && AllHold(s.stores, second)
    ensures MayFind(s, first.req, 0, found) && !IsSession(found, first.sid, first.req)
  {
    var run :| Run(c, run) && run[|run| - 1] == s;
    RunInv(c, run, |run| - 1);
    SuccessHolds(c, s, first.sid);
    SuccessHolds(c, s, second.sid);
    var st, e := s.stores[first.req.parties[0].id], AimEntry(first);
    assert HoldsAimed(s.stores, first, first.req.parties[0].id);
    assert HoldsAimed(s.stores, second, second.req.parties[0].id);
    assert ReadyInScan(st, e.keyId, AimEntry(second)) && AimEntry(second) != e;
    LookupFindsItIff(st, e);
    found :| LatestReady(st, e.keyId, found) && found != Some(st[e]);
    NotTheSession(st, e, found);
  }

  /** Any other entry than the session's is not the session's. */
  lemma NotTheSession(st: Store, e: EntryId, found: Option<KeyData>)
    requires StoreInv(st) && e in st && LatestReady(st, e.keyId, found) && found != Some(st[e])
    ensures found.None? || found.value.keyId != e.keyId || found.value.keySessionId != e.sessionId
  {
    if found.Some? {
      var f :| f in st && InScan(e.keyId, f.keyId) && st[f] == found.value;
      assert EntryOk(f, st[f]) && f != e;
    }
  }

  lemma SuccessHolds(c: Config, s: State, sid: SessionId)
    requires Inv(c, s) && SucceededAt(s, sid, SOME_KEY)
    ensures var req := s.sessions[sid].req;
      |req.parties| > 0 &&
      var id, e := req.parties[0].id, EntryId(req.keyId, sid);
      id in s.stores && e in s.stores[id] && s.stores[id][e].status == StatusReady
  {
    HeldInState(c, s, sid, SOME_KEY);
    AgreementInState(c, s, sid, SOME_KEY);
    assert HoldsSomeKey(s, sid, s.sessions[sid].req, 0);
  }

  /** After a call for a servable request has succeeded, with calls for `other` beside it, look-ups at
      the listed parties go on finding its session in every run exactly when `other` does not continue
      the key id with a colon. */
  lemma LookupStableIff(c: Config, sid: SessionId, req: Request, other: KeyId)
    requires ColonFree(sid) && |req.parties| <= MAX_INT32 && Servable(c, req)
    ensures LookupStable(c, sid, req, other) <==> !(req.keyId + [COLON] <= other)
  {
    if req.keyId + [COLON] <= other {
      var s, found := Displaced(c, sid, req, other);
    } else {
      forall s, pubkey, k: nat, found |
        Reachable(c, s) && SucceededAt(s, sid, pubkey) && s.sessions[sid].req == req
        && AsksOnlyFor(s, req.keyId, other) && MayFind(s, req, k, found)
        ensures IsSession(found, sid, req)
      {
        FindsIt(c, s, sid, req, other, pubkey, k, found);
      }
    }
  }
}
