/** What a handler sees of the network: its control stream and the sessions it can open to others. */
module Streams {
  import opened Wrappers
  import opened TssTypes
  import opened Routing
  import opened Mailing

  /** What the receive numbered `received` gives, if it does not fail. */
  function Arrival(fails: nat -> bool, received: nat, inbox: seq<TssP2PMsg>): Option<TssP2PMsg> {
    if fails(received) || inbox == [] then None else Some(inbox[0])
  }

  /** One end of a control stream: what is still to come in, and what was handed over to be sent.
      Which sends and receives fail, counted from the first, is free. */
  class ControlStream {
    const failsSend: nat -> bool
    const failsRecv: nat -> bool
    var inbox: seq<TssP2PMsg>
    var received: nat
    var sent: seq<TssP2PMsg>

    constructor (inbox: seq<TssP2PMsg>, failsSend: nat -> bool, failsRecv: nat -> bool)
      ensures this.inbox == inbox && received == 0 && sent == []
      ensures this.failsSend == failsSend && this.failsRecv == failsRecv
    {
      this.failsSend := failsSend;
      this.failsRecv := failsRecv;
      this.inbox := inbox;
      received := 0;
      sent := [];
    }

    /** A send may fail, and may have delivered all the same. */
    method SendMsg(msg: TssP2PMsg) returns (ok: bool)
      modifies this`sent
      ensures sent == old(sent) + [msg]
      ensures ok == !failsSend(|old(sent)|)
    {
      ok := !failsSend(|sent|);
      sent := sent + [msg];
    }

    /** A receive may fail; otherwise it takes the next message. */
    method RecvMsg() returns (msg: Option<TssP2PMsg>)
      modifies this`inbox, this`received
      ensures received == old(received) + 1
      ensures msg == Arrival(failsRecv, old(received), old(inbox))
      ensures inbox == if msg.Some? then old(inbox)[1..] else old(inbox)
    {
      received := received + 1;
      if failsRecv(received - 1) || inbox == [] {
        return None;
      }
      msg := Some(inbox[0]);
      inbox := inbox[1..];
    }
  }

  /** None of the `n` letters from the one numbered `start` on fails to be sent. */
  ghost predicate GetThrough(fails: nat -> bool, start: nat, n: nat) {
    forall k :: start <= k < start + n ==> !fails(k)
  }

  /** The letters are sent in order, up to the first that fails, if one does. */
  ghost predicate SentInOrder(fails: nat -> bool, before: seq<Letter>, letters: seq<Letter>, sent: seq<Letter>,
                              ok: bool)
  {
    if ok then sent == before + letters && GetThrough(fails, |before|, |letters|)
    else
      && |before| < |sent| && before <= sent <= before + letters
      && fails(|sent| - 1) && GetThrough(fails, |before|, |sent| - 1 - |before|)
  }

  /** Session messages to other participants, each on a stream of its own. Which of them fail, counted
      from the first, is free. */
  class SessionNetwork {
    const fails: nat -> bool
    var sent: seq<Letter>

    constructor (fails: nat -> bool)
      ensures this.fails == fails && sent == []
    {
      this.fails := fails;
      sent := [];
    }

    /** Opening the stream or sending on it may fail. */
    method Send(to: PartyId, msg: ProcessMsg) returns (ok: bool)
      modifies this
      ensures sent == old(sent) + [Letter(to, msg)]
      ensures ok == !fails(|old(sent)|)
    {
      ok := !fails(|sent|);
      sent := sent + [Letter(to, msg)];
    }

    /** Sends a session message to each addressee in turn, up to the first failure. */
    method SendAll(to: seq<PartyId>, msg: ProcessMsg) returns (ok: bool)
      modifies this
      ensures SentInOrder(fails, old(sent), Letters(to, msg), sent, ok)
    {
      ok := true;
      var i := 0;
      while i < |to| && ok
        invariant 0 <= i <= |to|
        invariant sent == old(sent) + Letters(to, msg)[..i]
        invariant if ok then GetThrough(fails, |old(sent)|, i)
                  else i > 0 && fails(|sent| - 1) && GetThrough(fails, |old(sent)|, i - 1)
      {
        ok := Send(to[i], msg);
        assert Letters(to, msg)[..i + 1] == Letters(to, msg)[..i] + [Letters(to, msg)[i]];
        i := i + 1;
      }
    }
  }

  // ---- the event loop's events ----

  /** What the event loop's select may take. An outgoing message names its addressees unless it is a
      broadcast; one that does not serialize has no wire form; an incoming update may not parse. */
  datatype Event<+O> =
    | ContextDone
    | Incoming(msg: ProcessMsg, parses: bool)
    | Outgoing(to: Option<seq<PartyId>>, wire: Option<Bytes>)
    | Produced(output: O)
    | LocalError

  /** The loop goes on after the event, if what it sends gets through. */
  predicate Passes<O>(event: Event<O>, parties: seq<PartyID>) {
    match event
    case Incoming(ProcessUpdate(from, _, _), parses) => from in Ids(parties) && parses
    case Outgoing(_, wire) => wire.Some?
    case _ => false
  }

  /** What the event sends, and to whom. */
  function EventLetters<O>(event: Event<O>, parties: seq<PartyID>, local: PartyId): seq<Letter> {
    match event
    case Outgoing(to, Some(wire)) =>
      Letters(if to.None? then Others(parties, local) else to.value, ProcessUpdate(local, wire, to.None?))
    case _ => []
  }

  function Outbox<O>(events: seq<Event<O>>, parties: seq<PartyID>, local: PartyId): seq<Letter> {
    if events == [] then []
    else Outbox(events[..|events| - 1], parties, local) + EventLetters(events[|events| - 1], parties, local)
  }

  /** What tss-lib put out in these events. */
  function PutsOf<O>(events: seq<Event<O>>, parties: seq<PartyID>, local: PartyId): seq<Put> {
    if events == [] then []
    else PutsOf(events[..|events| - 1], parties, local) +
         match events[|events| - 1]
         case Outgoing(to, Some(wire)) => [Put(wire, to.None?, if to.None? then Others(parties, local) else to.value)]
         case _ => []
  }

  /** What the loop sends is what the handlers of the machines post for it. */
  lemma {:induction false} OutboxIsPosted<O>(events: seq<Event<O>>, parties: seq<PartyID>, local: PartyId)
    ensures Outbox(events, parties, local) == PutLetters(local, PutsOf(events, parties, local))
  {
    if events != [] {
      var front := events[..|events| - 1];
      OutboxIsPosted(front, parties, local);
      var puts, all := PutsOf(front, parties, local), PutsOf(events, parties, local);
      if |all| > |puts| {
        assert all[..|all| - 1] == puts;
      } else {
        assert all == puts;
      }
    }
  }

  ghost predicate AllPass<O>(events: seq<Event<O>>, parties: seq<PartyID>) {
    forall j :: 0 <= j < |events| ==> Passes(events[j], parties)
  }

  /** What the network makes of an event: its letters go out in order, up to one that fails. */
  ghost predicate EventTook<O>(fails: nat -> bool, event: Event<O>, parties: seq<PartyID>, local: PartyId,
                               before: seq<Letter>, sent: seq<Letter>, sendFailed: bool)
  {
    SentInOrder(fails, before, EventLetters(event, parties, local), sent, !sendFailed)
  }

  /** What the loop keeps while it runs: the events taken passed, and all their letters went out. */
  ghost predicate LoopRuns<O>(fails: nat -> bool, events: seq<Event<O>>, taken: nat, parties: seq<PartyID>,
                              local: PartyId, before: seq<Letter>, sent: seq<Letter>)
  {
    && taken <= |events| && AllPass(events[..taken], parties)
    && sent == before + Outbox(events[..taken], parties, local)
    && GetThrough(fails, |before|, |Outbox(events[..taken], parties, local)|)
  }

  /** The loop took the first `taken` events: it ran up to the last of them, which did not pass, or one
      of whose letters failed, unless there are no more events. */
  ghost predicate LoopTook<O>(fails: nat -> bool, events: seq<Event<O>>, taken: nat, parties: seq<PartyID>,
                              local: PartyId, before: seq<Letter>, sent: seq<Letter>, sendFailed: bool)
  {
    if taken > 0 && taken <= |events| && (sendFailed || !Passes(events[taken - 1], parties)) then
      var mid := before + Outbox(events[..taken - 1], parties, local);
      && LoopRuns(fails, events, taken - 1, parties, local, before, mid)
      && EventTook(fails, events[taken - 1], parties, local, mid, sent, sendFailed)
    else
      taken == |events| && !sendFailed && LoopRuns(fails, events, taken, parties, local, before, sent)
  }

  lemma PassesAppend<O>(events: seq<Event<O>>, taken: nat, parties: seq<PartyID>)
    requires taken < |events| && AllPass(events[..taken], parties) && Passes(events[taken], parties)
    ensures AllPass(events[..taken + 1], parties)
  {
    assert events[..taken + 1] == events[..taken] + [events[taken]];
  }

  /** After an event that passed and was sent, the loop goes on. */
  lemma LoopGoesOn<O>(fails: nat -> bool, events: seq<Event<O>>, taken: nat, parties: seq<PartyID>, local: PartyId,
                      before: seq<Letter>, mid: seq<Letter>, sent: seq<Letter>)
    requires taken < |events| && LoopRuns(fails, events, taken, parties, local, before, mid)
    requires Passes(events[taken], parties) && EventTook(fails, events[taken], parties, local, mid, sent, false)
    ensures LoopRuns(fails, events, taken + 1, parties, local, before, sent)
  {
    PassesAppend(events, taken, parties);
    OutboxStep(events, taken, parties, local);
    var out, more := Outbox(events[..taken], parties, local), EventLetters(events[taken], parties, local);
    assert before + out + more == before + (out + more);
  }

  /** An event that does not pass, or one of whose letters fails, ends the loop. */
  lemma LoopEnds<O>(fails: nat -> bool, events: seq<Event<O>>, taken: nat, parties: seq<PartyID>, local: PartyId,
                    before: seq<Letter>, mid: seq<Letter>, sent: seq<Letter>, sendFailed: bool)
    requires taken < |events| && LoopRuns(fails, events, taken, parties, local, before, mid)
    requires EventTook(fails, events[taken], parties, local, mid, sent, sendFailed)
    requires sendFailed || !Passes(events[taken], parties)
    ensures LoopTook(fails, events, taken + 1, parties, local, before, sent, sendFailed)
  {
  }

  /** A loop that passed every event has taken them all. */
  lemma LoopIsThrough<O>(fails: nat -> bool, events: seq<Event<O>>, parties: seq<PartyID>, local: PartyId,
                         before: seq<Letter>, sent: seq<Letter>)
    requires LoopRuns(fails, events, |events|, parties, local, before, sent)
    ensures LoopTook(fails, events, |events|, parties, local, before, sent, false)
    ensures events != [] ==> Passes(events[|events| - 1], parties)
  {
    assert events[..|events|] == events;
  }

  lemma OutboxStep<O>(events: seq<Event<O>>, i: nat, parties: seq<PartyID>, local: PartyId)
    requires i < |events|
    ensures Outbox(events[..i + 1], parties, local) ==
      Outbox(events[..i], parties, local) + EventLetters(events[i], parties, local)
  {
    assert events[..i + 1][..i] == events[..i];
  }

  /** The first event that does not pass ends the loop, if no letter fails: the loop takes no less
      than the events before it and no more than this one. */
  lemma LoopStopsAt<O>(fails: nat -> bool, events: seq<Event<O>>, k: nat, taken: nat, parties: seq<PartyID>,
                       local: PartyId, before: seq<Letter>, sent: seq<Letter>, sendFailed: bool)
    requires k < |events| && AllPass(events[..k], parties) && !Passes(events[k], parties)
    requires forall n :: !fails(n)
    requires LoopTook(fails, events, taken, parties, local, before, sent, sendFailed)
    ensures taken == k + 1 && !sendFailed && sent == before + Outbox(events[..k], parties, local)
  {
    var passed := if taken > 0 && !Passes(events[taken - 1], parties) then taken - 1 else taken;
    assert forall j :: 0 <= j < passed ==> events[..passed][j] == events[j];
    assert forall j :: 0 <= j < k ==> events[..k][j] == events[j];
  }

  /** If all pass and no letter fails, the loop takes every event and sends all their letters. */
  lemma LoopTakesAll<O>(fails: nat -> bool, events: seq<Event<O>>, taken: nat, parties: seq<PartyID>,
                        local: PartyId, before: seq<Letter>, sent: seq<Letter>, sendFailed: bool)
    requires AllPass(events, parties) && forall n :: !fails(n)
    requires LoopTook(fails, events, taken, parties, local, before, sent, sendFailed)
    ensures taken == |events| && !sendFailed && sent == before + Outbox(events, parties, local)
  {
    assert events[..|events|] == events;
  }
}
