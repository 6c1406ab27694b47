/** The values that tss/tss.proto declares, shared by every component. */
module TssTypes {

  newtype byte = x: int | 0 <= x < 256

  type Bytes = seq<byte>

  /** A Go string is a sequence of bytes. */
  type GoString = Bytes

  type PartyId = GoString
  type KeyId = GoString
  type SessionId = GoString

  type int32 = x: int | -0x8000_0000 <= x < 0x8000_0000

  const MAX_INT32: int := 0x7FFF_FFFF

  /** The separator between a key id and a session id in a database key. */
  const COLON: byte := 58

  /** Session ids are UUID texts: hexadecimal digits and dashes. */
  predicate ColonFree(s: GoString) {
    COLON !in s
  }

  datatype PartyID = PartyID(id: PartyId, moniker: GoString, key: Bytes)

  datatype KeyStatus = StatusUnknown | StatusPending | StatusReady | StatusError

  /** Timestamps are only compared, so they are integers. */
  datatype KeyData = KeyData(
    keyId: KeyId,
    keySessionId: SessionId,
    threshold: int32,
    allPartyId: seq<PartyID>,
    pubkey: Bytes,
    status: KeyStatus,
    saveDataJson: GoString,
    createdTime: int,
    updatedTime: int)

  datatype KeyGenPrepare = KeyGenPrepare(
    sessionId: SessionId, keyId: KeyId, threshold: int32, allPartyId: seq<PartyID>)

  datatype KeyGenFinish = KeyGenFinish(isSuccess: bool, failureReason: GoString, publicKey: Bytes)

  datatype KeySignPrepare = KeySignPrepare(
    signId: GoString, sessionId: SessionId, keyId: KeyId, keySessionId: SessionId, signMsg: Bytes)

  datatype Signature = Signature(r: Bytes, s: Bytes, v: Bytes)

  datatype KeySignFinish = KeySignFinish(isSuccess: bool, failureReason: GoString, signature: Signature)

  datatype ProcessMsg =
    | ProcessUpdate(fromPartyId: PartyId, wireBytes: Bytes, isBroadcast: bool)
    | ProcessError(errorMsg: GoString)

  datatype TssP2PMsg =
    | KeyGenPrepareMsg(keyGenPrepare: KeyGenPrepare)
    | KeyGenReadyMsg
    | KeyGenStartMsg
    | KeyGenFinishMsg(keyGenFinish: KeyGenFinish)
    | KeySignPrepareMsg(keySignPrepare: KeySignPrepare)
    | KeySignReadyMsg
    | KeySignStartMsg(signPartyId: seq<PartyID>)
    | KeySignCancelMsg
    | KeySignFinishMsg(keySignFinish: KeySignFinish)
    | ProcessMsg(process: ProcessMsg)

  /** The ids of a party list, in its order. */
  function Ids(parties: seq<PartyID>): (ids: seq<PartyId>)
    ensures |ids| == |parties|
    ensures forall i :: 0 <= i < |parties| ==> ids[i] == parties[i].id
  {
    seq(|parties|, i requires 0 <= i < |parties| => parties[i].id)
  }
}
