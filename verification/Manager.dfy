/**
 * The storage side of the manager. Each method runs under the manager's lock in the program, so
 * each is one atomic step here; its contract is the matching change of KeyStore.
 */
module Manager {
  import opened Wrappers
  import opened TssTypes
  import opened KeyStore
  import opened Storage

  datatype StorageError =
    | KeyAlreadyExists
    | KeyIsGenerating
    | KeyDataNotFound
    | StatusNotExpected

  /** Why a list of key data refuses a new generation: the first pending or ready entry decides. */
  function Refusal(list: seq<KeyData>): (r: Option<StorageError>)
    ensures r.Some? <==> exists i :: 0 <= i < |list| && Live(list[i])
  {
    if list == [] then None
    else if list[0].status == StatusReady then Some(KeyAlreadyExists)
    else if list[0].status == StatusPending then Some(KeyIsGenerating)
    else Refusal(list[1..])
  }

  /** The first pending or ready entry of the list decides which error it is. */
  lemma {:induction false} FirstLiveDecides(list: seq<KeyData>, k: nat)
    requires k < |list| && Live(list[k]) && forall j :: 0 <= j < k ==> !Live(list[j])
    ensures Refusal(list) == Some(if list[k].status == StatusReady then KeyAlreadyExists else KeyIsGenerating)
  {
    if k > 0 {
      assert !Live(list[0]);
      FirstLiveDecides(list[1..], k - 1);
    }
  }

  /** `k` is the first of the newest ready entries of `list`. */
  ghost predicate FirstNewestReady(list: seq<KeyData>, k: nat) {
    && k < |list| && list[k].status == StatusReady
    && (forall j :: 0 <= j < |list| && list[j].status == StatusReady ==> list[j].createdTime <= list[k].createdTime)
    && (forall j :: 0 <= j < k && list[j].status == StatusReady ==> list[j].createdTime < list[k].createdTime)
  }

  /** The scan refuses exactly when the map holds a pending or ready entry that the scan meets. */
  lemma RefusalMeaning(db: seq<Record>, keyId: KeyId)
    requires Sorted(db) && Filed(db)
    ensures Refusal(WithPrefix(db, ScanPrefix(keyId))).Some? <==> LiveInScan(Contents(db), keyId)
  {
    var list, st := WithPrefix(db, ScanPrefix(keyId)), Contents(db);
    if Refusal(list).Some? {
      var i :| 0 <= i < |list| && Live(list[i]);
      ScanMeaning(db, keyId, list[i]);
      var e :| e in st && InScan(keyId, e.keyId) && st[e] == list[i];
      assert Live(st[e]);
    }
    if LiveInScan(st, keyId) {
      var e :| e in st && InScan(keyId, e.keyId) && Live(st[e]);
      ScanMeaning(db, keyId, st[e]);
      var i :| 0 <= i < |list| && list[i] == st[e];
      assert Live(list[i]);
    }
  }

  ghost predicate NewestOf(list: seq<KeyData>, latest: Option<KeyData>) {
    match latest
    case None => forall j :: 0 <= j < |list| ==> list[j].status != StatusReady
    case Some(d) => exists k: nat :: FirstNewestReady(list, k) && list[k] == d
  }

  /** The newest ready entry of the scanned list is the newest that the map holds. */
  lemma NewestMeaning(db: seq<Record>, keyId: KeyId, latest: Option<KeyData>)
    requires Sorted(db) && Filed(db)
    requires NewestOf(WithPrefix(db, ScanPrefix(keyId)), latest)
    ensures LatestReady(Contents(db), keyId, latest)
  {
    var list, st := WithPrefix(db, ScanPrefix(keyId)), Contents(db);
    forall e | e in st && InScan(keyId, e.keyId) ensures exists j :: 0 <= j < |list| && list[j] == st[e] {
      ScanMeaning(db, keyId, st[e]);
    }
    if latest.Some? {
      var k: nat :| FirstNewestReady(list, k) && list[k] == latest.value;
      ScanMeaning(db, keyId, list[k]);
    }
  }

  lemma NewestStep(list: seq<KeyData>, i: nat, latest: Option<KeyData>)
    requires i < |list| && NewestOf(list[..i], latest)
    ensures NewestOf(list[..i + 1],
              if list[i].status == StatusReady && (latest.None? || list[i].createdTime > latest.value.createdTime)
              then Some(list[i]) else latest)
  {
    var front := list[..i];
    assert list[..i + 1] == front + [list[i]];
    NewestAppend(front, list[i], latest);
  }

  lemma NewestAppend(front: seq<KeyData>, d: KeyData, latest: Option<KeyData>)
    requires NewestOf(front, latest)
    ensures NewestOf(front + [d],
              if d.status == StatusReady && (latest.None? || d.createdTime > latest.value.createdTime)
              then Some(d) else latest)
  {
    if d.status == StatusReady && (latest.None? || d.createdTime > latest.value.createdTime) {
      assert FirstNewestReady(front + [d], |front|);
    } else if latest.Some? {
      var k: nat :| FirstNewestReady(front, k) && front[k] == latest.value;
      assert FirstNewestReady(front + [d], k);
    }
  }

  class Manager {
    const localStorage: LevelDBStorage

    constructor (localStorage: LevelDBStorage)
      ensures this.localStorage == localStorage
    {
      this.localStorage := localStorage;
    }

    method CheckAndSetKeyGenStorage(keyId: KeyId, sessionId: SessionId, threshold: int32,
                                    allPartyId: seq<PartyID>, createdTime: int)
      returns (error: Option<StorageError>)
      requires localStorage.Valid() && ColonFree(sessionId)
      modifies localStorage
      ensures localStorage.Valid()
      ensures CheckAndSet(old(localStorage.Map()), EntryId(keyId, sessionId), threshold, allPartyId, createdTime,
                          error.None?, localStorage.Map())
      ensures error == Refusal(WithPrefix(old(localStorage.db), ScanPrefix(keyId)))
    {
      var keyDataList := localStorage.GetKeyDataListByKeyId(keyId);
      var i := 0;
      RefusalMeaning(localStorage.db, keyId);
      while i < |keyDataList|
        invariant 0 <= i <= |keyDataList|
        invariant Refusal(keyDataList) == Refusal(keyDataList[i..])
      {
        if keyDataList[i].status == StatusReady {
          return Some(KeyAlreadyExists);
        } else if keyDataList[i].status == StatusPending {
          return Some(KeyIsGenerating);
        }
        i := i + 1;
      }
      localStorage.SetKeyData(
        KeyData(keyId, sessionId, threshold, allPartyId, [], StatusPending, [], createdTime, createdTime));
      error := None;
    }

    method GetLatestReadyKeyDataByKeyIdFromStorage(keyId: KeyId) returns (latest: Option<KeyData>)
      requires localStorage.Valid()
      ensures LatestReady(localStorage.Map(), keyId, latest)
      ensures NewestOf(WithPrefix(localStorage.db, ScanPrefix(keyId)), latest)
    {
      var keyDataList := localStorage.GetKeyDataListByKeyId(keyId);
      latest := None;
      var i := 0;
      while i < |keyDataList|
        invariant 0 <= i <= |keyDataList|
        invariant NewestOf(keyDataList[..i], latest)
      {
        NewestStep(keyDataList, i, latest);
        var d := keyDataList[i];
        if d.status == StatusReady {
          if latest.None? || d.createdTime > latest.value.createdTime {
            latest := Some(d);
          }
        }
        i := i + 1;
      }
      assert keyDataList[..i] == keyDataList;
      NewestMeaning(localStorage.db, keyId, latest);
    }

    method GetKeyDataByKeyIdAndKeySessionIdFromStorage(keyId: KeyId, keySessionId: SessionId)
      returns (keyData: Option<KeyData>)
      requires localStorage.Valid() && ColonFree(keySessionId)
      ensures var e := EntryId(keyId, keySessionId);
        keyData == if e in localStorage.Map() then Some(localStorage.Map()[e]) else None
    {
      keyData := localStorage.GetKeyDataByKeyIdAndKeySessionId(keyId, keySessionId);
    }

    method CompareAndSetKeyStatusStorage(keyId: KeyId, keySessionId: SessionId, pubKey: Bytes,
                                         expectStatus: KeyStatus, updateStatus: KeyStatus,
                                         updateSavedDataJson: GoString, updatedTime: int)
      returns (error: Option<StorageError>)
      requires localStorage.Valid() && ColonFree(keySessionId)
      modifies localStorage
      ensures localStorage.Valid()
      ensures CompareAndSet(old(localStorage.Map()), EntryId(keyId, keySessionId), pubKey, expectStatus, updateStatus,
                            updateSavedDataJson, updatedTime, error.None?, localStorage.Map())
      ensures error == Some(KeyDataNotFound) <==> EntryId(keyId, keySessionId) !in old(localStorage.Map())
    {
      ContentsLookup(localStorage.db, EntryId(keyId, keySessionId));
      var found := localStorage.GetKeyDataByKeyIdAndKeySessionId(keyId, keySessionId);
      if found.None? {
        return Some(KeyDataNotFound);
      }
      var keyData := found.value;
      if keyData.status != expectStatus {
        return Some(StatusNotExpected);
      }
      keyData := keyData.(status := updateStatus);
      keyData := keyData.(saveDataJson := updateSavedDataJson);
      keyData := keyData.(updatedTime := updatedTime);
      keyData := keyData.(pubkey := pubKey);
      localStorage.SetKeyData(keyData);
      error := None;
    }
  }
}
