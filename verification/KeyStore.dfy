/**
 * What a node durably remembers about its keys, as a map from (key id, session id) to key data,
 * with the three ways the key generation handler changes it and the invariant those changes keep.
 */
module KeyStore {
  import opened Wrappers
  import opened TssTypes

  datatype EntryId = EntryId(keyId: KeyId, sessionId: SessionId)

  type Store = map<EntryId, KeyData>

  /** The entry of a key generation session. */
  function EntryOf(p: KeyGenPrepare): EntryId {
    EntryId(p.keyId, p.sessionId)
  }

  /** A scan for `keyId` also meets entries whose key id extends `keyId` by a colon. */
  predicate InScan(keyId: KeyId, other: KeyId) {
    other == keyId || keyId + [COLON] <= other
  }

  predicate Live(d: KeyData) {
    d.status == StatusPending || d.status == StatusReady
  }

  ghost predicate LiveInScan(st: Store, keyId: KeyId) {
    exists e :: e in st && InScan(keyId, e.keyId) && Live(st[e])
  }

  // ---- the three changes ----

  function PendingEntry(e: EntryId, threshold: int32, parties: seq<PartyID>, time: int): KeyData {
    KeyData(e.keyId, e.sessionId, threshold, parties, [], StatusPending, [], time, time)
  }

  /** checkAndSetKeyGenStorage: refused while any entry met by the scan is pending or ready. */
  ghost predicate CheckAndSet(st: Store, e: EntryId, threshold: int32, parties: seq<PartyID>, time: int,
                              ok: bool, st': Store)
  {
    && ok == !LiveInScan(st, e.keyId)
    && st' == if ok then st[e := PendingEntry(e, threshold, parties, time)] else st
  }

  predicate Matches(st: Store, e: EntryId, expected: KeyStatus) {
    e in st && st[e].status == expected
  }

  /** compareAndSetKeyStatusStorage: refused unless the entry is there with the expected status. */
  predicate CompareAndSet(st: Store, e: EntryId, pubkey: Bytes, expected: KeyStatus, update: KeyStatus,
                          save: GoString, time: int, ok: bool, st': Store)
  {
    && ok == Matches(st, e, expected)
    && st' == if ok
              then st[e := st[e].(status := update, saveDataJson := save, updatedTime := time, pubkey := pubkey)]
              else st
  }

  /** One storage call of a key generation handler. */
  datatype StoreOp =
    | Begin(e: EntryId, threshold: int32, parties: seq<PartyID>, time: int)
    | Abort(e: EntryId, time: int)
    | Commit(e: EntryId, pubkey: Bytes, save: GoString, time: int)

  /** The calls the handler makes, with its arguments: aborting clears both payload fields, and a
      committed public key and save data are never empty. */
  ghost predicate Apply(st: Store, op: StoreOp, ok: bool, st': Store) {
    match op
    case Begin(e, threshold, parties, time) =>
      CheckAndSet(st, e, threshold, parties, time, ok, st')
    case Abort(e, time) =>
      CompareAndSet(st, e, [], StatusPending, StatusError, [], time, ok, st')
    case Commit(e, pubkey, save, time) =>
      && pubkey != [] && save != []
      && CompareAndSet(st, e, pubkey, StatusPending, StatusReady, save, time, ok, st')
  }

  ghost predicate StoreNext(st: Store, st': Store) {
    exists op, ok :: Apply(st, op, ok, st')
  }

  // ---- the invariant ----

  /** The payload fields are filled exactly in ready entries. */
  predicate EntryOk(e: EntryId, d: KeyData) {
    && d.keyId == e.keyId && d.keySessionId == e.sessionId
    && d.status != StatusUnknown
    && (d.saveDataJson != [] <==> d.status == StatusReady)
    && (d.pubkey != [] <==> d.status == StatusReady)
  }

  ghost predicate StoreInv(st: Store) {
    && (forall e :: e in st ==> EntryOk(e, st[e]))
    && (forall e, f :: e in st && f in st && e.keyId == f.keyId && Live(st[e]) && Live(st[f]) ==> e == f)
  }

  /** How one entry may change in one step. */
  predicate EntryStep(st: Store, st': Store, e: EntryId)
  {
    && (e in st ==> e in st')
    && (e in st && st[e].status == StatusReady ==> st'[e] == st[e])
    && (e in st && st[e].status == StatusPending ==>
          st'[e].threshold == st[e].threshold && st'[e].allPartyId == st[e].allPartyId
          && st'[e].createdTime == st[e].createdTime)
    && (e in st && st[e].status == StatusError ==>
          st'[e] == st[e] || st'[e].status == StatusPending)
    && (e !in st && e in st' ==> st'[e].status == StatusPending)
  }

  lemma {:induction false} OpKeepsInv(st: Store, op: StoreOp, ok: bool, st': Store)
    requires StoreInv(st) && Apply(st, op, ok, st')
    ensures StoreInv(st')
    ensures forall e :: EntryStep(st, st', e)
  {
    if ok {
      match op
      case Begin(e, threshold, parties, time) =>
        forall f | f in st && f != e && f.keyId == e.keyId ensures !Live(st[f]) {
          assert InScan(e.keyId, f.keyId);
        }
        if e in st {
          assert InScan(e.keyId, e.keyId);
          assert !Live(st[e]);
        }
      case Abort(e, time) =>
      case Commit(e, pubkey, save, time) =>
    }
  }

  /** A step leaves every entry other than the one it names as it was. */
  lemma OpTouchesOneEntry(st: Store, op: StoreOp, ok: bool, st': Store, f: EntryId)
    requires Apply(st, op, ok, st')
    requires f != op.e
    ensures f in st <==> f in st'
    ensures f in st ==> st'[f] == st[f]
  {
  }

  // ---- whole runs ----

  ghost predicate StoreRun(run: seq<Store>) {
    && |run| > 0
    && run[0] == map[]
    && forall i :: 0 <= i < |run| - 1 ==> StoreNext(run[i], run[i + 1])
  }

  lemma {:induction false} RunKeepsInv(run: seq<Store>, i: nat)
    requires StoreRun(run) && i < |run|
    ensures StoreInv(run[i])
  {
    if i > 0 {
      RunKeepsInv(run, i - 1);
      assert StoreNext(run[i - 1], run[i - 1 + 1]);
      var op, ok :| Apply(run[i - 1], op, ok, run[i]);
      OpKeepsInv(run[i - 1], op, ok, run[i]);
    }
  }

  /** A ready entry is the only pending or ready one of its key; all the others are errors. */
  lemma OthersAreErrors(st: Store, e: EntryId, f: EntryId)
    requires StoreInv(st)
    requires e in st && Live(st[e]) && f in st && f.keyId == e.keyId && f != e
    ensures st[f].status == StatusError
  {
    assert EntryOk(f, st[f]);
  }

  lemma NextMovesEntry(st: Store, st': Store, e: EntryId)
    requires StoreInv(st) && StoreNext(st, st')
    ensures EntryStep(st, st', e)
  {
    var op, ok :| Apply(st, op, ok, st');
    OpKeepsInv(st, op, ok, st');
  }

  lemma StepMovesEntry(run: seq<Store>, k: nat, e: EntryId)
    requires StoreRun(run) && k < |run| - 1
    ensures EntryStep(run[k], run[k + 1], e)
  {
    RunKeepsInv(run, k);
    NextMovesEntry(run[k], run[k + 1], e);
  }

  /** Over every run entries are never removed, and a ready entry never changes again. */
  lemma {:induction false} ReadyIsFrozen(run: seq<Store>, i: nat, j: nat, e: EntryId)
    requires StoreRun(run) && i <= j < |run|
    requires e in run[i]
    ensures e in run[j]
    ensures run[i][e].status == StatusReady ==> run[j][e] == run[i][e]
    decreases j - i
  {
    if i < j {
      ReadyIsFrozen(run, i, j - 1, e);
      StepMovesEntry(run, j - 1, e);
    }
  }

  // ---- looking a key up ----

  /** `found` is what a search for the newest ready entry of `keyId` may return. */
  ghost predicate LatestReady(st: Store, keyId: KeyId, found: Option<KeyData>) {
    match found
    case None => forall e :: e in st && InScan(keyId, e.keyId) ==> st[e].status != StatusReady
    case Some(d) =>
      && d.status == StatusReady
      && (exists e :: e in st && InScan(keyId, e.keyId) && st[e] == d)
      && (forall e :: e in st && InScan(keyId, e.keyId) && st[e].status == StatusReady ==>
            st[e].createdTime <= d.createdTime)
  }

  /** No key id in the store continues `keyId` with a colon. */
  ghost predicate NotExtended(st: Store, keyId: KeyId) {
    forall e :: e in st ==> !(keyId + [COLON] <= e.keyId)
  }

  /** With a ready entry for the key and no extending key id, every search finds that entry. */
  lemma LookupFindsTheReadyEntry(st: Store, e: EntryId, found: Option<KeyData>)
    requires StoreInv(st)
    requires e in st && st[e].status == StatusReady
    requires NotExtended(st, e.keyId)
    requires LatestReady(st, e.keyId, found)
    ensures found == Some(st[e])
  {
    assert InScan(e.keyId, e.keyId);
    if found.Some? {
      var f :| f in st && InScan(e.keyId, f.keyId) && st[f] == found.value;
      assert f.keyId == e.keyId;
      assert Live(st[f]) && Live(st[e]);
    }
  }

  ghost predicate ReadyInScan(st: Store, keyId: KeyId, f: EntryId) {
    f in st && InScan(keyId, f.keyId) && st[f].status == StatusReady
  }

  /** Every other ready entry that a scan for the key meets is older. */
  ghost predicate NewestInScan(st: Store, e: EntryId)
    requires e in st
  {
    forall f :: ReadyInScan(st, e.keyId, f) && f != e ==> st[f].createdTime < st[e].createdTime
  }

  lemma {:induction false} NewestAmong(st: Store, s: set<EntryId>) returns (f: EntryId)
    requires s != {} && s <= st.Keys
    ensures f in s && forall g :: g in s ==> st[g].createdTime <= st[f].createdTime
    decreases |s|
  {
    f :| f in s;
    if s != {f} {
      var g := NewestAmong(st, s - {f});
      if st[g].createdTime > st[f].createdTime {
        f := g;
      }
    }
  }

  /** Every search for the key finds a given ready entry exactly when each ready entry of a key id
      that continues this one with a colon is older; without such key ids that always holds. */
  lemma LookupFindsItIff(st: Store, e: EntryId)
    requires StoreInv(st) && e in st && st[e].status == StatusReady
    ensures (forall found :: LatestReady(st, e.keyId, found) ==> found == Some(st[e])) <==> NewestInScan(st, e)
  {
    assert InScan(e.keyId, e.keyId);
    if NewestInScan(st, e) {
      forall found | LatestReady(st, e.keyId, found) ensures found == Some(st[e]) {
        var f :| f in st && InScan(e.keyId, f.keyId) && st[f] == found.value;
        assert ReadyInScan(st, e.keyId, f);
      }
    } else {
      var rivals := set f | f in st && ReadyInScan(st, e.keyId, f) && f != e;
      var g :| ReadyInScan(st, e.keyId, g) && g != e;
      assert g in rivals;
      var f := NewestAmong(st, rivals);
      RivalIsFound(st, e, f, rivals);
    }
  }

  lemma RivalIsFound(st: Store, e: EntryId, f: EntryId, rivals: set<EntryId>)
    requires StoreInv(st) && e in st && st[e].status == StatusReady && !NewestInScan(st, e)
    requires forall g :: g in rivals <==> ReadyInScan(st, e.keyId, g) && g != e
    requires f in rivals && forall g :: g in rivals ==> g in st && st[g].createdTime <= st[f].createdTime
    ensures LatestReady(st, e.keyId, Some(st[f])) && st[f] != st[e]
  {
    var g :| ReadyInScan(st, e.keyId, g) && g != e && st[g].createdTime >= st[e].createdTime;
    assert g in rivals;
    forall h | h in st && InScan(e.keyId, h.keyId) && st[h].status == StatusReady
      ensures st[h].createdTime <= st[f].createdTime
    {
      assert ReadyInScan(st, e.keyId, h);
      assert h == e || h in rivals;
    }
    assert EntryOk(f, st[f]) && EntryOk(e, st[e]);
  }

  // ---- which keys displace another in look-ups ----

  ghost predicate KeysAmong(st: Store, keyId: KeyId, other: KeyId) {
    forall e :: e in st ==> e.keyId == keyId || e.keyId == other
  }

  function Last(run: seq<Store>): Store
    requires |run| > 0
  {
    run[|run| - 1]
  }

  /** Over all runs of the storage calls with these two key ids, a search for the key finds its ready
      entry. */
  ghost predicate SearchStable(keyId: KeyId, other: KeyId) {
    forall run, e, found ::
      StoreRun(run) && KeysAmong(Last(run), keyId, other)
      && e in Last(run) && e.keyId == keyId && Last(run)[e].status == StatusReady
      && LatestReady(Last(run), keyId, found)
      ==> found == Some(Last(run)[e])
  }

  lemma StoreRunGrows(run: seq<Store>, op: StoreOp, st': Store) returns (longer: seq<Store>)
    requires StoreRun(run) && Apply(Last(run), op, true, st')
    ensures StoreRun(longer) && Last(longer) == st'
  {
    longer := run + [st'];
    assert StoreNext(Last(run), st');
    forall i | 0 <= i < |longer| - 1 ensures StoreNext(longer[i], longer[i + 1]) {
      if i < |run| - 1 {
        assert StoreNext(run[i], run[i + 1]);
      }
    }
  }

  /** An entry is set pending and made ready, where nothing is in its way. */
  lemma Generated(run: seq<Store>, e: EntryId, time: int) returns (longer: seq<Store>)
    requires StoreRun(run) && !LiveInScan(Last(run), e.keyId)
    ensures StoreRun(longer) && e in Last(longer) && Last(longer) == Last(run)[e := Last(longer)[e]]
    ensures Last(longer)[e].status == StatusReady && Last(longer)[e].createdTime == time
  {
    var pending := PendingEntry(e, 0, [], time);
    var ready := pending.(status := StatusReady, saveDataJson := [1], updatedTime := time, pubkey := [1]);
    longer := StoreRunGrows(run, Begin(e, 0, [], time), Last(run)[e := pending]);
    longer := StoreRunGrows(longer, Commit(e, [1], [1], time), Last(run)[e := pending][e := ready]);
    assert Last(run)[e := pending][e := ready] == Last(run)[e := ready];
  }

  /** A key is generated, then one that continues its id with a colon: that is found instead. */
  lemma SearchDisplaced(keyId: KeyId, other: KeyId)
    requires keyId + [COLON] <= other
    ensures !SearchStable(keyId, other)
  {
    var e, f := EntryId(keyId, []), EntryId(other, []);
    assert StoreRun([map[]]);
    var run := Generated([map[]], e, 0);
    assert !InScan(other, keyId);
    run := Generated(run, f, 1);
    RunKeepsInv(run, |run| - 1);
    assert ReadyInScan(Last(run), keyId, f) && f != e;
    LookupFindsItIff(Last(run), e);
    var found :| LatestReady(Last(run), keyId, found) && found != Some(Last(run)[e]);
  }

  /** Searches for a key go on finding its ready entry, beside entries of another key id, exactly when
      that does not continue the key id with a colon. */
  lemma SearchStableIff(keyId: KeyId, other: KeyId)
    ensures SearchStable(keyId, other) <==> !(keyId + [COLON] <= other)
  {
    if keyId + [COLON] <= other {
      SearchDisplaced(keyId, other);
    } else {
      forall run, e, found |
        StoreRun(run) && KeysAmong(Last(run), keyId, other)
        && e in Last(run) && e.keyId == keyId && Last(run)[e].status == StatusReady
        && LatestReady(Last(run), keyId, found)
        ensures found == Some(Last(run)[e])
      {
        RunKeepsInv(run, |run| - 1);
        LookupFindsTheReadyEntry(Last(run), e, found);
      }
    }
  }
}
