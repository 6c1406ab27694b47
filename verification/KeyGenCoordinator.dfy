/**
 * The two select loops of KeyGen, run as loops over what the channels hand to them. Which case select
 * takes when several are ready is up to the list: every list is a possible order.
 */
module KeyGenCoordinator {
  import opened Wrappers
  import opened TssTypes
  import opened SeqLemmas

  /** What a select may take: the context's end, an error, or an item of the loop's own channel. */
  datatype Arrival<+T> = ContextDone(error: GoString) | Errored(error: GoString) | Item(item: T)

  datatype ReadyStream = ReadyStream(remotePartyId: PartyId, stream: nat)

  /** Every ready stream belongs to a listed party: only those were dialled. */
  ghost predicate FromParties(arrivals: seq<Arrival<ReadyStream>>, parties: seq<PartyID>) {
    forall k :: 0 <= k < |arrivals| && arrivals[k].Item? ==> arrivals[k].item.remotePartyId in Ids(parties)
  }

  /** The ready map after these arrivals: each id heard ready, with its last stream. */
  function ReadyAfter(arrivals: seq<Arrival<ReadyStream>>): map<PartyId, nat> {
    if arrivals == [] then map[]
    else
      var before := ReadyAfter(arrivals[..|arrivals| - 1]);
      match arrivals[|arrivals| - 1]
      case Item(r) => before[r.remotePartyId := r.stream]
      case _ => before
  }

  /** No arrival ends a loop. */
  ghost predicate Quiet<T>(arrivals: seq<Arrival<T>>) {
    forall k :: 0 <= k < |arrivals| ==> arrivals[k].Item?
  }

  /** The first `k` arrivals have made the map as large as the party list. */
  predicate FullAfter(arrivals: seq<Arrival<ReadyStream>>, parties: seq<PartyID>, k: nat)
    requires k <= |arrivals|
  {
    0 < k && |ReadyAfter(arrivals[..k])| == |parties|
  }

  /** The first arrivals, up to but without the `used`-th, never made the map full. */
  predicate NotFullBefore(arrivals: seq<Arrival<ReadyStream>>, parties: seq<PartyID>, used: nat)
    requires used <= |arrivals|
  {
    forall k: nat :: k < used ==> !FullAfter(arrivals, parties, k)
  }

  lemma ReadyStep(arrivals: seq<Arrival<ReadyStream>>, k: nat)
    requires k < |arrivals|
    ensures ReadyAfter(arrivals[..k + 1]) ==
      match arrivals[k]
      case Item(r) => ReadyAfter(arrivals[..k])[r.remotePartyId := r.stream]
      case _ => ReadyAfter(arrivals[..k])
  {
    assert arrivals[..k + 1][..k] == arrivals[..k];
  }

  /**
   * The loop that waits until the ready map is as large as the party list, with what arrives while
   * it runs. It passes at the first arrival that makes the map full, and then every listed party was
   * heard ready and no id is listed twice; it fails at the first context end or error before that;
   * otherwise nothing of this arrived and it still waits.
   */
  method WaitForReady(parties: seq<PartyID>, arrivals: seq<Arrival<ReadyStream>>)
    returns (ready: map<PartyId, nat>, passed: bool, failed: bool, used: nat)
    requires FromParties(arrivals, parties)
    ensures used <= |arrivals| && ready == ReadyAfter(arrivals[..used])
    ensures NotFullBefore(arrivals, parties, used)
    ensures passed <==> Quiet(arrivals[..used]) && FullAfter(arrivals, parties, used)
    ensures passed ==> ready.Keys == ToSet(Ids(parties)) && Distinct(Ids(parties))
    ensures failed <==> used > 0 && Quiet(arrivals[..used - 1]) && !arrivals[used - 1].Item?
    ensures !passed && !failed ==> used == |arrivals| && Quiet(arrivals)
  {
    ready, passed, failed, used := map[], false, false, 0;
    while used < |arrivals| && !passed && !failed
      invariant used <= |arrivals| && ready == ReadyAfter(arrivals[..used])
      invariant NotFullBefore(arrivals, parties, used)
      invariant !failed ==> Quiet(arrivals[..used]) && (passed <==> FullAfter(arrivals, parties, used))
      invariant failed ==> used > 0 && Quiet(arrivals[..used - 1]) && !arrivals[used - 1].Item? && !passed
      decreases |arrivals| - used
    {
      ReadyStep(arrivals, used);
      assert NotFullBefore(arrivals, parties, used + 1);
      var a := arrivals[used];
      assert a.Item? ==> Quiet(arrivals[..used + 1]);
      used := used + 1;
      match a {
        case ContextDone(_) => failed := true;
        case Errored(_) => failed := true;
        case Item(readyStream) =>
          ready := ready[readyStream.remotePartyId := readyStream.stream];
          passed := |ready| == |parties|;
      }
    }
    if passed {
      ListedOnly(parties, arrivals[..used]);
      FullMap(parties, ready.Keys);
    } else if !failed {
      assert arrivals[..used] == arrivals;
    }
  }

  lemma {:induction false} ListedOnly(parties: seq<PartyID>, arrivals: seq<Arrival<ReadyStream>>)
    requires FromParties(arrivals, parties)
    ensures forall id :: id in ReadyAfter(arrivals) ==> id in Ids(parties)
  {
    if arrivals != [] {
      ListedOnly(parties, arrivals[..|arrivals| - 1]);
    }
  }

  /** As many distinct listed ids as there are places in the list: everyone, and no id twice. */
  lemma FullMap(parties: seq<PartyID>, ids: set<PartyId>)
    requires |ids| == |parties| && forall id :: id in ids ==> id in Ids(parties)
    ensures ids == ToSet(Ids(parties)) && Distinct(Ids(parties))
  {
    DistinctCount(Ids(parties));
    SubsetCard(ids, ToSet(Ids(parties)));
    SubsetSameCard(ids, ToSet(Ids(parties)));
  }

  // ---- the finish loop ----

  /** Every arrival is the finish of a participant that succeeded. */
  ghost predicate AllWell(arrivals: seq<Arrival<KeyGenFinish>>) {
    forall k :: 0 <= k < |arrivals| ==> arrivals[k].Item? && arrivals[k].item.isSuccess
  }

  /**
   * The loop that counts finishes. It succeeds exactly when as many successes as there are parties
   * have come, with no failure before, and with the public key of the last; the first failure of any
   * kind ends it with that failure's reason.
   */
  method WaitForFinish(parties: seq<PartyID>, arrivals: seq<Arrival<KeyGenFinish>>)
    returns (result: Option<Result<Bytes, GoString>>, used: nat)
    requires |parties| > 0
    ensures used <= |arrivals|
    ensures result == None ==> AllWell(arrivals) && used == |arrivals| < |parties|
    ensures result.Some? && result.value.Success? ==>
      && AllWell(arrivals[..used]) && used == |parties|
      && result.value.value == arrivals[used - 1].item.publicKey
    ensures result.Some? && result.value.Failure? ==>
      && 0 < used <= |parties| && AllWell(arrivals[..used - 1])
      && match arrivals[used - 1]
         case ContextDone(error) => result.value.error == error
         case Errored(error) => result.value.error == error
         case Item(finish) => !finish.isSuccess && result.value.error == finish.failureReason
  {
    result, used := None, 0;
    var finishCnt := 0;
    while used < |arrivals|
      invariant used <= |arrivals| && AllWell(arrivals[..used])
      invariant finishCnt == used < |parties|
    {
      var a := arrivals[used];
      used := used + 1;
      match a {
        case ContextDone(error) => return Some(Failure(error)), used;
        case Errored(error) => return Some(Failure(error)), used;
        case Item(finish) =>
          if !finish.isSuccess {
            return Some(Failure(finish.failureReason)), used;
          }
          finishCnt := finishCnt + 1;
          if finishCnt == |parties| {
            return Some(Success(finish.publicKey)), used;
          }
      }
    }
    assert arrivals[..used] == arrivals;
  }
}
