/** Session messages between the participants of one session: what a handler puts out, what of it goes
    out, and what arrives. */
module Mailing {
  import opened Wrappers
  import opened TssTypes
  import opened SeqLemmas
  import opened Routing

  /** An outgoing tss-lib message: its wire form, whether it is a broadcast, and its addressees. */
  datatype Put = Put(wire: Bytes, broadcast: bool, to: seq<PartyId>)

  /** A message that arrived from the participant listed at `from`. */
  datatype Mail = Mail(from: nat, msg: ProcessMsg)

  /**
   * What one handler did with session messages: what its event loop put out and which letters of that
   * it posted, the failure that it raised the alarm for and the letters of that, and what it got.
   */
  datatype Trail = Trail(
    puts: seq<Put>, posted: seq<Letter>,
    alarm: Option<GoString>, alarmed: seq<Letter>,
    got: multiset<Mail>)

  const NO_TRAIL := Trail([], [], None, [], multiset{})

  function Update(from: PartyId, put: Put): ProcessMsg {
    ProcessUpdate(from, put.wire, put.broadcast)
  }

  /** The letters that carry out all these messages, in order. */
  function PutLetters(from: PartyId, puts: seq<Put>): seq<Letter> {
    if puts == [] then []
    else
      var last := puts[|puts| - 1];
      PutLetters(from, puts[..|puts| - 1]) + Letters(last.to, Update(from, last))
  }

  /** All letters of a handler. */
  function Posted(t: Trail): seq<Letter> {
    t.posted + t.alarmed
  }

  // ---- one handler ----

  /** Between messages: all that was put out has been posted. */
  predicate AllPosted(from: PartyId, t: Trail) {
    t.posted == PutLetters(from, t.puts)
  }

  /** In the middle of a message: it has gone to `sent` and has yet to go to `to`. */
  predicate Posting(from: PartyId, t: Trail, put: Put, sent: seq<PartyId>, to: seq<PartyId>) {
    && t.puts != [] && t.puts[|t.puts| - 1] == put && put.to == sent + to
    && t.posted == PutLetters(from, t.puts[..|t.puts| - 1]) + Letters(sent, Update(from, put))
  }

  /** Nothing was posted that was not put out, or out of its order; only the last message may not have
      been posted to the end. */
  predicate PostedInOrder(from: PartyId, t: Trail) {
    && t.posted <= PutLetters(from, t.puts)
    && (t.puts != [] ==> PutLetters(from, t.puts[..|t.puts| - 1]) <= t.posted)
  }

  lemma StartsPosting(from: PartyId, t: Trail, put: Put)
    requires AllPosted(from, t)
    ensures Posting(from, t.(puts := t.puts + [put]), put, [], put.to)
  {
    assert (t.puts + [put])[..|t.puts|] == t.puts;
    assert put.to == [] + put.to;
  }

  lemma PostsOne(from: PartyId, t: Trail, put: Put, sent: seq<PartyId>, to: seq<PartyId>)
    requires Posting(from, t, put, sent, to) && to != []
    ensures Posting(from, t.(posted := t.posted + [Letter(to[0], Update(from, put))]), put, sent + [to[0]], to[1..])
  {
    assert sent + to == sent + [to[0]] + to[1..];
    var m := Update(from, put);
    assert Letters(sent + [to[0]], m) == Letters(sent, m) + [Letter(to[0], m)];
  }

  lemma PostingInOrder(from: PartyId, t: Trail, put: Put, sent: seq<PartyId>, to: seq<PartyId>)
    requires Posting(from, t, put, sent, to)
    ensures PostedInOrder(from, t)
    ensures to == [] ==> AllPosted(from, t)
  {
    var m := Update(from, put);
    assert Letters(sent + to, m) == Letters(sent, m) + Letters(to, m);
    assert sent + [] == sent;
  }

  /** The alarm goes to every other member in order, and nowhere before there is one. */
  predicate Alarmed(parties: seq<PartyID>, from: PartyId, t: Trail) {
    match t.alarm
    case None => t.alarmed == []
    case Some(reason) => t.alarmed <= Letters(Others(parties, from), ProcessError(reason))
  }

  /** The alarm has gone out, but for the addressees `to`. */
  predicate AlarmLeft(parties: seq<PartyID>, from: PartyId, t: Trail, to: seq<PartyId>, reason: GoString) {
    && t.alarm == Some(reason)
    && t.alarmed + Letters(to, ProcessError(reason)) == Letters(Others(parties, from), ProcessError(reason))
  }

  lemma AlarmsOne(parties: seq<PartyID>, from: PartyId, t: Trail, to: seq<PartyId>, reason: GoString)
    requires AlarmLeft(parties, from, t, to, reason) && to != []
    ensures AlarmLeft(parties, from, t.(alarmed := t.alarmed + [Letter(to[0], ProcessError(reason))]), to[1..], reason)
  {
    var m := ProcessError(reason);
    assert Letters(to, m) == [Letter(to[0], m)] + Letters(to[1..], m);
  }

  lemma AlarmLeftIsAlarmed(parties: seq<PartyID>, from: PartyId, t: Trail, to: seq<PartyId>, reason: GoString)
    requires AlarmLeft(parties, from, t, to, reason)
    ensures Alarmed(parties, from, t)
  {
  }

  /** Every letter posted belongs to a message that was put out. */
  lemma {:induction false} LetterOfPut(from: PartyId, puts: seq<Put>, x: Letter)
    requires x in PutLetters(from, puts)
    ensures exists put :: put in puts && x.msg == Update(from, put) && x.to in put.to
  {
    var front, last := puts[..|puts| - 1], puts[|puts| - 1];
    if x in PutLetters(from, front) {
      LetterOfPut(from, front, x);
    } else {
      assert x in Letters(last.to, Update(from, last));
      assert last in puts;
    }
  }

  lemma {:induction false} PutLettersGrow(from: PartyId, puts: seq<Put>, k: nat)
    requires k <= |puts|
    ensures PutLetters(from, puts[..k]) <= PutLetters(from, puts)
  {
    if k < |puts| {
      PutLettersGrow(from, puts[..|puts| - 1], k);
      assert puts[..|puts| - 1][..k] == puts[..k];
    } else {
      assert puts[..k] == puts;
    }
  }

  /** A message after which the handler went on was posted to all its addressees. */
  lemma PostedWhole(from: PartyId, t: Trail, k: nat)
    requires PostedInOrder(from, t) && k < |t.puts| && (k < |t.puts| - 1 || AllPosted(from, t))
    ensures PutLetters(from, t.puts[..k]) + Letters(t.puts[k].to, Update(from, t.puts[k])) <= t.posted
  {
    var upTo := t.puts[..k + 1];
    assert upTo[..k] == t.puts[..k];
    if k < |t.puts| - 1 {
      var front := t.puts[..|t.puts| - 1];
      PutLettersGrow(from, front, k + 1);
      assert front[..k + 1] == upTo;
    } else {
      assert upTo == t.puts;
    }
  }

  /** With distinct ids, the letters of broadcasts to one member are at most as many as the broadcasts. */
  lemma {:induction false} BroadcastLetters(parties: seq<PartyID>, from: PartyId, puts: seq<Put>, x: Letter)
    requires Distinct(Ids(parties)) && x.msg.ProcessUpdate? && x.msg.isBroadcast
    requires forall put :: put in puts && put.broadcast ==> put.to == Others(parties, from)
    ensures multiset(PutLetters(from, puts))[x] <= multiset(puts)[Put(x.msg.wireBytes, true, Others(parties, from))]
  {
    if puts != [] {
      var front, last := puts[..|puts| - 1], puts[|puts| - 1];
      assert puts == front + [last];
      BroadcastLetters(parties, from, front, x);
      LettersOnce(last.to, Update(from, last), x);
      if last.broadcast {
        OthersExact(parties, from, x.to);
      }
    }
  }

  /** A message to a list of addressees goes to each as often as the list names it. */
  lemma {:induction false} LettersOnce(to: seq<PartyId>, msg: ProcessMsg, x: Letter)
    ensures multiset(Letters(to, msg))[x] == if x.msg == msg then multiset(to)[x.to] else 0
  {
    if to != [] {
      var front, last := to[..|to| - 1], to[|to| - 1];
      LettersOnce(front, msg, x);
      assert to == front + [last];
      assert Letters(to, msg) == Letters(front, msg) + [Letter(last, msg)];
    }
  }

  lemma PrefixCounts<T>(short: seq<T>, long: seq<T>, x: T)
    requires short <= long
    ensures multiset(short)[x] <= multiset(long)[x]
  {
    assert long == short + long[|short|..];
  }

  // ---- all handlers of a session ----

  /** What the handler of `id` got from the one listed at `i`, that one posted, as often at least. */
  ghost predicate Covers(i: nat, sender: Trail, id: PartyId, receiver: Trail) {
    forall m :: receiver.got[Mail(i, m)] <= multiset(Posted(sender))[Letter(id, m)]
  }

  /** Whatever arrives was posted by another handler to this address, and no more often than that. */
  ghost predicate Accounted(ids: seq<PartyId>, trails: seq<Trail>) {
    && |ids| == |trails|
    && (forall j, x :: 0 <= j < |trails| && x in trails[j].got ==> x.from < |trails| && x.from != j)
    && (forall i: nat, j :: i < |trails| && 0 <= j < |trails| ==> Covers(i, trails[i], ids[j], trails[j]))
  }

  /** Posting more and getting nothing keeps this. */
  lemma PostingKeepsAccount(ids: seq<PartyId>, trails: seq<Trail>, i: nat, t': Trail)
    requires Accounted(ids, trails) && i < |trails|
    requires t'.got == trails[i].got && multiset(Posted(trails[i])) <= multiset(Posted(t'))
    ensures Accounted(ids, trails[i := t'])
  {
    var trails' := trails[i := t'];
    forall a: nat, b | a < |trails| && 0 <= b < |trails| ensures Covers(a, trails'[a], ids[b], trails'[b]) {
      assert Covers(a, trails[a], ids[b], trails[b]);
    }
  }

  lemma CoversOneMore(i: nat, sender: Trail, sender': Trail, id: PartyId, receiver: Trail, receiver': Trail,
                      m: ProcessMsg)
    requires Covers(i, sender, id, receiver)
    requires multiset(Posted(sender')) == multiset(Posted(sender)) + multiset{Letter(id, m)}
    requires receiver'.got == receiver.got + multiset{Mail(i, m)}
    ensures Covers(i, sender', id, receiver')
  {
  }

  lemma CoversOthers(i: nat, sender: Trail, sender': Trail, id: PartyId, receiver: Trail, receiver': Trail, x: Mail)
    requires Covers(i, sender, id, receiver) && x.from != i
    requires multiset(Posted(sender)) <= multiset(Posted(sender'))
    requires receiver'.got == receiver.got || receiver'.got == receiver.got + multiset{x}
    ensures Covers(i, sender', id, receiver')
  {
    forall m ensures receiver'.got[Mail(i, m)] <= multiset(Posted(sender'))[Letter(id, m)] {
      assert receiver'.got[Mail(i, m)] == receiver.got[Mail(i, m)];
    }
  }

  /** So does posting a letter that arrives. */
  lemma DeliveringKeepsAccount(ids: seq<PartyId>, trails: seq<Trail>, i: nat, j: nat, m: ProcessMsg,
                                 ti: Trail, tj: Trail)
    requires Accounted(ids, trails) && i < |trails| && j < |trails| && i != j
    requires ti.got == trails[i].got
    requires multiset(Posted(ti)) == multiset(Posted(trails[i])) + multiset{Letter(ids[j], m)}
    requires tj == trails[j].(got := trails[j].got + multiset{Mail(i, m)})
    ensures Accounted(ids, trails[i := ti][j := tj])
  {
    var mid, trails' := trails[i := ti], trails[i := ti][j := tj];
    PostingKeepsAccount(ids, trails, i, ti);
    forall a: nat, b | a < |trails| && 0 <= b < |trails| ensures Covers(a, trails'[a], ids[b], trails'[b]) {
      if a == i && b == j {
        CoversOneMore(i, trails[i], ti, ids[j], trails[j], tj, m);
      } else {
        assert Covers(a, mid[a], ids[b], mid[b]);
        if a != i {
          CoversOthers(a, mid[a], trails'[a], ids[b], mid[b], trails'[b], Mail(i, m));
        }
      }
    }
  }
}
