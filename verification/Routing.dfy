/** Whom the session messages of a participant go to. */
module Routing {
  import opened TssTypes
  import opened SeqLemmas

  /** Everyone in the list but the local party, in order, as a broadcast addresses them. */
  function Others(parties: seq<PartyID>, local: PartyId): seq<PartyId> {
    if parties == [] then []
    else (if parties[0].id != local then [parties[0].id] else []) + Others(parties[1..], local)
  }

  /** Whom an outgoing tss-lib message goes to: everyone else, or peers that tss-lib names. */
  predicate Addressed(parties: seq<PartyID>, local: PartyId, to: seq<PartyId>, broadcast: bool) {
    if broadcast then to == Others(parties, local)
    else forall k :: 0 <= k < |to| ==> to[k] in Ids(parties) && to[k] != local
  }

  datatype Letter = Letter(to: PartyId, msg: ProcessMsg)

  /** One message to each of these parties, in order. */
  function Letters(to: seq<PartyId>, msg: ProcessMsg): (r: seq<Letter>)
    ensures |r| == |to| && forall k :: 0 <= k < |to| ==> r[k] == Letter(to[k], msg)
  {
    seq(|to|, k requires 0 <= k < |to| => Letter(to[k], msg))
  }

  /** A broadcast lists every other member once, for distinct ids, and the sender never. */
  lemma {:induction false} OthersExact(parties: seq<PartyID>, local: PartyId, x: PartyId)
    requires Distinct(Ids(parties))
    ensures multiset(Others(parties, local))[x] == if x in Ids(parties) && x != local then 1 else 0
  {
    if parties == [] {
    } else {
      var rest := parties[1..];
      assert Ids(parties) == [parties[0].id] + Ids(rest);
      DistinctCons(parties[0].id, Ids(rest));
      OthersExact(rest, local, x);
    }
  }

  /** The loop that collects the addressees of a broadcast. */
  method CollectOthers(parties: seq<PartyID>, local: PartyId) returns (toPbPartyIds: seq<PartyId>)
    ensures toPbPartyIds == Others(parties, local)
  {
    toPbPartyIds := [];
    var i := 0;
    while i < |parties|
      invariant 0 <= i <= |parties|
      invariant toPbPartyIds + Others(parties[i..], local) == Others(parties, local)
    {
      if parties[i].id != local {
        toPbPartyIds := toPbPartyIds + [parties[i].id];
      }
      i := i + 1;
    }
  }
}
