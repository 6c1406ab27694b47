/**
 * The ordered key-value store under the key data: composite keys, point reads and writes, and the
 * prefix scan, with the map from (key id, session id) to key data that they implement.
 */
module Storage {
  import opened Wrappers
  import opened TssTypes
  import opened ByteOrder
  import opened KeyStore

  /** One record of the database. Marshalling and unmarshalling are an inverse pair, so a record
      holds the key data itself. */
  datatype Record = Record(key: Bytes, data: KeyData)

  function DbKey(keyId: KeyId, sessionId: SessionId): Bytes {
    keyId + [COLON] + sessionId
  }

  function ScanPrefix(keyId: KeyId): Bytes {
    keyId + [COLON]
  }

  function KeyOf(d: KeyData): Bytes {
    DbKey(d.keyId, d.keySessionId)
  }

  // ---- composite keys ----

  /** A database key is the key id, a colon (byte 58) and the session id, in this order. */
  lemma DbKeyBytes(keyId: KeyId, sessionId: SessionId)
    ensures var key := DbKey(keyId, sessionId);
      && |key| == |keyId| + 1 + |sessionId|
      && key[..|keyId|] == keyId && key[|keyId|] == 58 && key[|keyId| + 1..] == sessionId
    ensures ScanPrefix(keyId) == DbKey(keyId, sessionId)[..|keyId| + 1]
  {
  }

  /** Composite keys of colon-free session ids determine both parts, whatever the key ids are. */
  lemma DbKeyInjective(k: KeyId, s: SessionId, k': KeyId, s': SessionId)
    requires ColonFree(s) && ColonFree(s')
    requires DbKey(k, s) == DbKey(k', s')
    ensures k == k' && s == s'
  {
    var key := DbKey(k, s);
    assert key[|k|] == COLON && key[|k'|] == COLON by {
      assert DbKey(k', s')[|k'|] == COLON;
    }
    if |k| < |k'| {
      assert false;
    } else if |k'| < |k| {
      assert false;
    }
    assert k == key[..|k|] && k' == DbKey(k', s')[..|k'|];
    assert s == key[|k| + 1..] && s' == DbKey(k', s')[|k'| + 1..];
  }

  /** Without that, two different entries can share a database key. */
  lemma DbKeyCollides()
    ensures exists k, s, k', s' :: (k != k' || s != s') && DbKey(k, s) == DbKey(k', s')
  {
    var k, s, k', s' := [1], [2, COLON, 3], [1, COLON, 2], [3];
    assert DbKey(k, s) == DbKey(k', s');
    assert |k| != |k'|;
  }

  /** The scan prefix of `keyId` selects its own entries and those of key ids that extend it. */
  lemma PrefixSelects(keyId: KeyId, other: KeyId, s: SessionId)
    requires ColonFree(s)
    ensures ScanPrefix(keyId) <= DbKey(other, s) <==> InScan(keyId, other)
  {
    var p, key := ScanPrefix(keyId), DbKey(other, s);
    if p <= key {
      assert p[|keyId|] == COLON == key[|keyId|];
      if |keyId| > |other| {
        assert false;
      } else if |keyId| == |other| {
        assert other == key[..|other|] == p[..|other|] == keyId;
      } else {
        assert other == key[..|other|];
        assert p == key[..|p|] == other[..|p|];
      }
    }
    if InScan(keyId, other) {
      if other == keyId {
        assert key == p + s;
      } else {
        assert key == p + (other[|p|..] + [COLON] + s);
      }
    }
  }

  // ---- the ordered table ----

  ghost predicate Sorted(db: seq<Record>) {
    forall i, j :: 0 <= i < j < |db| ==> Less(db[i].key, db[j].key)
  }

  /** Every record lies under the key of its data. */
  ghost predicate Filed(db: seq<Record>) {
    forall i :: 0 <= i < |db| ==> db[i].key == KeyOf(db[i].data) && ColonFree(db[i].data.keySessionId)
  }

  /** The first record at or after `key`. */
  function Seek(db: seq<Record>, key: Bytes): (i: nat)
    ensures i <= |db|
    ensures forall j :: 0 <= j < i ==> Less(db[j].key, key)
    ensures i < |db| ==> !Less(db[i].key, key)
  {
    if db == [] || !Less(db[0].key, key) then 0 else 1 + Seek(db[1..], key)
  }

  lemma NotFoundBySeek(db: seq<Record>, key: Bytes, j: nat)
    requires Sorted(db) && j < |db| && db[j].key == key
    ensures Seek(db, key) == j
  {
    LessIrreflexive(key);
    assert !(Seek(db, key) < j);
  }

  /** Db.Get. */
  function Get(db: seq<Record>, key: Bytes): (found: Option<KeyData>) {
    var i := Seek(db, key);
    if i < |db| && db[i].key == key then Some(db[i].data) else None
  }

  /** Db.SetSync: replaces the record under the key, or inserts it at its place. */
  function Put(db: seq<Record>, key: Bytes, data: KeyData): seq<Record> {
    var i := Seek(db, key);
    if i < |db| && db[i].key == key then db[i := Record(key, data)]
    else db[..i] + [Record(key, data)] + db[i..]
  }

  lemma GetIff(db: seq<Record>, key: Bytes, d: KeyData)
    requires Sorted(db)
    ensures Get(db, key) == Some(d) <==> Record(key, d) in db
  {
    if Record(key, d) in db {
      var j :| 0 <= j < |db| && db[j] == Record(key, d);
      NotFoundBySeek(db, key, j);
    }
  }

  lemma PutKeepsOrder(db: seq<Record>, data: KeyData)
    requires Sorted(db) && Filed(db) && ColonFree(data.keySessionId)
    ensures Sorted(Put(db, KeyOf(data), data)) && Filed(Put(db, KeyOf(data), data))
  {
    var key := KeyOf(data);
    var i, db' := Seek(db, key), Put(db, key, data);
    if !(i < |db| && db[i].key == key) {
      forall j | i <= j < |db| ensures Less(key, db[j].key) {
        LessTotal(key, db[i].key);
        if i < j {
          LessTransitive(key, db[i].key, db[j].key);
        }
      }
    }
  }

  lemma GetAfterPut(db: seq<Record>, key: Bytes, data: KeyData, other: Bytes)
    requires Sorted(db) && Filed(db) && key == KeyOf(data) && ColonFree(data.keySessionId)
    ensures Get(Put(db, key, data), other) == if other == key then Some(data) else Get(db, other)
  {
    var db' := Put(db, key, data);
    PutKeepsOrder(db, data);
    var i := Seek(db, key);
    if other == key {
      assert db'[i] == Record(key, data);
      GetIff(db', key, data);
    } else {
      match Get(db, other)
      case Some(d) =>
        GetIff(db, other, d);
        var j :| 0 <= j < |db| && db[j] == Record(other, d);
        assert Record(other, d) in db' by {
          if j < i { assert db'[j] == db[j]; }
          else if |db'| == |db| { assert db'[j] == db[j]; }
          else { assert db'[j + 1] == db[j]; }
        }
        GetIff(db', other, d);
      case None =>
        match Get(db', other) {
          case None =>
          case Some(d) =>
            GetIff(db', other, d);
            assert Record(other, d) in db;
            GetIff(db, other, d);
        }
    }
  }

  // ---- the table as a map ----

  ghost function Contents(db: seq<Record>): Store {
    map e | e in (set i | 0 <= i < |db| :: EntryId(db[i].data.keyId, db[i].data.keySessionId))
            && Get(db, DbKey(e.keyId, e.sessionId)).Some?
      :: Get(db, DbKey(e.keyId, e.sessionId)).value
  }

  /** The map holds exactly the filed records, and a point read is a map look-up. */
  lemma ContentsLookup(db: seq<Record>, e: EntryId)
    requires Sorted(db) && Filed(db) && ColonFree(e.sessionId)
    ensures Get(db, DbKey(e.keyId, e.sessionId))
         == if e in Contents(db) then Some(Contents(db)[e]) else None
    ensures e in Contents(db) ==>
      Contents(db)[e].keyId == e.keyId && Contents(db)[e].keySessionId == e.sessionId
  {
    var key := DbKey(e.keyId, e.sessionId);
    match Get(db, key)
    case None =>
    case Some(d) =>
      GetIff(db, key, d);
      var i :| 0 <= i < |db| && db[i] == Record(key, d);
      DbKeyInjective(d.keyId, d.keySessionId, e.keyId, e.sessionId);
      assert EntryId(db[i].data.keyId, db[i].data.keySessionId) == e;
  }

  lemma ContentsKeysColonFree(db: seq<Record>)
    requires Filed(db)
    ensures forall e :: e in Contents(db) ==> ColonFree(e.sessionId)
  {
  }

  /** Writing refines a map update. */
  lemma PutRefines(db: seq<Record>, data: KeyData)
    requires Sorted(db) && Filed(db) && ColonFree(data.keySessionId)
    ensures Contents(Put(db, KeyOf(data), data))
         == Contents(db)[EntryId(data.keyId, data.keySessionId) := data]
  {
    var key, db' := KeyOf(data), Put(db, KeyOf(data), data);
    var id := EntryId(data.keyId, data.keySessionId);
    var want := Contents(db)[id := data];
    PutKeepsOrder(db, data);
    ContentsKeysColonFree(db);
    ContentsKeysColonFree(db');
    forall e: EntryId | ColonFree(e.sessionId)
      ensures e in Contents(db') <==> e in want
      ensures e in want ==> Contents(db')[e] == want[e]
    {
      ContentsLookup(db, e);
      ContentsLookup(db', e);
      GetAfterPut(db, key, data, DbKey(e.keyId, e.sessionId));
      if DbKey(e.keyId, e.sessionId) == key {
        DbKeyInjective(e.keyId, e.sessionId, data.keyId, data.keySessionId);
      }
    }
    assert Contents(db') == want;
  }

  // ---- the scan ----

  /** The data of the records whose key has the prefix, in table order. */
  function WithPrefix(db: seq<Record>, p: Bytes): (r: seq<KeyData>) {
    if db == [] then []
    else (if p <= db[0].key then [db[0].data] else []) + WithPrefix(db[1..], p)
  }

  lemma {:induction false} WithPrefixConcat(a: seq<Record>, b: seq<Record>, p: Bytes)
    ensures WithPrefix(a + b, p) == WithPrefix(a, p) + WithPrefix(b, p)
  {
    if a == [] {
      assert a + b == b;
    } else {
      assert (a + b)[1..] == a[1..] + b;
      WithPrefixConcat(a[1..], b, p);
    }
  }

  lemma {:induction false} WithPrefixNone(db: seq<Record>, p: Bytes)
    requires forall i :: 0 <= i < |db| ==> !(p <= db[i].key)
    ensures WithPrefix(db, p) == []
  {
    if db != [] {
      WithPrefixNone(db[1..], p);
    }
  }

  lemma {:induction false} WithPrefixMembers(db: seq<Record>, p: Bytes, d: KeyData)
    ensures d in WithPrefix(db, p) <==> exists i :: 0 <= i < |db| && p <= db[i].key && db[i].data == d
  {
    if db != [] {
      WithPrefixMembers(db[1..], p, d);
      if d in WithPrefix(db[1..], p) {
        var i :| 0 <= i < |db[1..]| && p <= db[1..][i].key && db[1..][i].data == d;
        assert db[i + 1].data == d;
      }
    }
  }

  /** The scan keeps the table's order, so no entry comes twice. */
  lemma {:induction false} ScanOrdered(db: seq<Record>, p: Bytes)
    requires Sorted(db) && Filed(db)
    ensures forall i, j :: 0 <= i < j < |WithPrefix(db, p)| ==>
      Less(KeyOf(WithPrefix(db, p)[i]), KeyOf(WithPrefix(db, p)[j]))
  {
    if db != [] {
      ScanOrdered(db[1..], p);
      var rest := WithPrefix(db[1..], p);
      forall j | 0 <= j < |rest| ensures Less(db[0].key, KeyOf(rest[j])) {
        WithPrefixMembers(db[1..], p, rest[j]);
        var i :| 0 <= i < |db[1..]| && p <= db[1..][i].key && db[1..][i].data == rest[j];
        assert db[i + 1].data == rest[j];
      }
    }
  }

  /** The scan in the map's terms: the entries of `keyId` and of the key ids that extend it. */
  lemma ScanMeaning(db: seq<Record>, keyId: KeyId, d: KeyData)
    requires Sorted(db) && Filed(db)
    ensures d in WithPrefix(db, ScanPrefix(keyId)) <==>
      exists e :: e in Contents(db) && InScan(keyId, e.keyId) && Contents(db)[e] == d
  {
    WithPrefixMembers(db, ScanPrefix(keyId), d);
    ContentsKeysColonFree(db);
    if d in WithPrefix(db, ScanPrefix(keyId)) {
      var i :| 0 <= i < |db| && ScanPrefix(keyId) <= db[i].key && db[i].data == d;
      var e := EntryId(d.keyId, d.keySessionId);
      PrefixSelects(keyId, d.keyId, d.keySessionId);
      assert db[i] == Record(DbKey(e.keyId, e.sessionId), d);
      GetIff(db, DbKey(e.keyId, e.sessionId), d);
      ContentsLookup(db, e);
      assert e in Contents(db) && InScan(keyId, e.keyId) && Contents(db)[e] == d;
    }
    if exists e :: e in Contents(db) && InScan(keyId, e.keyId) && Contents(db)[e] == d {
      var e :| e in Contents(db) && InScan(keyId, e.keyId) && Contents(db)[e] == d;
      ContentsLookup(db, e);
      GetIff(db, DbKey(e.keyId, e.sessionId), d);
      PrefixSelects(keyId, e.keyId, e.sessionId);
      var i :| 0 <= i < |db| && db[i] == Record(DbKey(e.keyId, e.sessionId), d);
      assert ScanPrefix(keyId) <= db[i].key;
    }
  }

  /** The scan returns the entries of `keyId` and no others exactly when no stored key id extends it. */
  lemma ScanExactIff(db: seq<Record>, keyId: KeyId)
    requires Sorted(db) && Filed(db)
    ensures (forall d :: d in WithPrefix(db, ScanPrefix(keyId)) ==> d.keyId == keyId)
       <==> NotExtended(Contents(db), keyId)
  {
    ContentsKeysColonFree(db);
    var exact := forall d :: d in WithPrefix(db, ScanPrefix(keyId)) ==> d.keyId == keyId;
    if NotExtended(Contents(db), keyId) {
      forall d | d in WithPrefix(db, ScanPrefix(keyId)) ensures d.keyId == keyId {
        ScanMeaning(db, keyId, d);
        var e :| e in Contents(db) && InScan(keyId, e.keyId) && Contents(db)[e] == d;
        ContentsLookup(db, e);
      }
    }
    if exact {
      forall e | e in Contents(db) ensures !(keyId + [COLON] <= e.keyId) {
        if keyId + [COLON] <= e.keyId {
          ContentsLookup(db, e);
          assert InScan(keyId, e.keyId);
          ScanMeaning(db, keyId, Contents(db)[e]);
          assert false;
        }
      }
    }
  }

  // ---- the storage object ----

  class LevelDBStorage {
    var db: seq<Record>

    ghost predicate Valid()
      reads this
    {
      Sorted(db) && Filed(db)
    }

    ghost function Map(): Store
      reads this
    {
      Contents(db)
    }

    constructor ()
      ensures Valid() && Map() == map[]
    {
      db := [];
    }

    /** Seeks to `keyId:` and stops at the first key without that prefix. */
    method GetKeyDataListByKeyId(keyId: KeyId) returns (keyDataList: seq<KeyData>)
      requires Valid()
      ensures keyDataList == WithPrefix(db, ScanPrefix(keyId))
    {
      var prefix := ScanPrefix(keyId);
      var itr := Seek(db, prefix);
      keyDataList := [];
      NothingBefore(prefix, itr);
      while itr < |db| && prefix <= db[itr].key
        invariant Seek(db, prefix) <= itr <= |db|
        invariant keyDataList == WithPrefix(db[..itr], prefix)
        invariant itr < |db| ==> !Less(db[itr].key, prefix)
      {
        keyDataList := keyDataList + [db[itr].data];
        OneMoreWithPrefix(prefix, itr);
        itr := itr + 1;
      }
      RestHasNoPrefix(prefix, itr);
      assert db == db[..itr] + db[itr..];
      WithPrefixConcat(db[..itr], db[itr..], prefix);
    }

    lemma NothingBefore(prefix: Bytes, start: nat)
      requires Valid() && start <= |db| && forall j :: 0 <= j < start ==> Less(db[j].key, prefix)
      ensures WithPrefix(db[..start], prefix) == []
    {
      forall j | 0 <= j < start ensures !(prefix <= db[..start][j].key) {
        if prefix <= db[j].key {
          PrefixNotAbove(prefix, db[j].key);
        }
      }
      WithPrefixNone(db[..start], prefix);
    }

    lemma OneMoreWithPrefix(prefix: Bytes, itr: nat)
      requires Valid() && itr < |db| && prefix <= db[itr].key && !Less(db[itr].key, prefix)
      ensures WithPrefix(db[..itr + 1], prefix) == WithPrefix(db[..itr], prefix) + [db[itr].data]
      ensures itr + 1 < |db| ==> !Less(db[itr + 1].key, prefix)
    {
      assert db[..itr + 1] == db[..itr] + [db[itr]];
      WithPrefixConcat(db[..itr], [db[itr]], prefix);
      if itr + 1 < |db| && Less(db[itr + 1].key, prefix) {
        LessTransitive(db[itr].key, db[itr + 1].key, prefix);
      }
    }

    lemma RestHasNoPrefix(prefix: Bytes, itr: nat)
      requires Valid() && itr <= |db|
      requires itr < |db| ==> !Less(db[itr].key, prefix) && !(prefix <= db[itr].key)
      ensures WithPrefix(db[itr..], prefix) == []
    {
      forall j | 0 <= j < |db[itr..]| ensures !(prefix <= db[itr..][j].key) {
        if j > 0 {
          PrefixRunEnds(prefix, db[itr].key, db[itr + j].key);
        }
      }
      WithPrefixNone(db[itr..], prefix);
    }

    method GetKeyDataByKeyIdAndKeySessionId(keyId: KeyId, keySessionId: SessionId)
      returns (keyData: Option<KeyData>)
      requires Valid() && ColonFree(keySessionId)
      ensures var e := EntryId(keyId, keySessionId);
        keyData == if e in Map() then Some(Map()[e]) else None
    {
      ContentsLookup(db, EntryId(keyId, keySessionId));
      keyData := Get(db, DbKey(keyId, keySessionId));
    }

    method SetKeyData(keyData: KeyData)
      requires Valid() && ColonFree(keyData.keySessionId)
      modifies this
      ensures Valid()
      ensures Map() == old(Map())[EntryId(keyData.keyId, keyData.keySessionId) := keyData]
    {
      PutKeepsOrder(db, keyData);
      PutRefines(db, keyData);
      db := Put(db, KeyOf(keyData), keyData);
    }
  }
}
