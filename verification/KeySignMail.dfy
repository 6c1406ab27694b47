/** The session messages of a signing: what arrives is what was sent, to whom it was sent, and no more
    often than it was sent. */
module KeySignMail {
  import opened Wrappers
  import opened TssTypes
  import opened SeqLemmas
  import opened KeyStore
  import opened Routing
  import opened Mailing
  import opened KeySignSystem
  import opened KeySignSystemInvariant
  import opened KeySignSystemTheorems
  import M = KeySignModel

  // ---- one handler ----

  /** What is put out is addressed among the signers of the run, and posted in order. */
  ghost predicate PostInv(id: PartyId, e: End) {
    && (e.trail.puts != [] ==> e.run.Some?)
    && (forall put :: put in e.trail.puts && e.run.Some? ==>
          Addressed(e.run.value.signers, id, put.to, put.broadcast))
    && PostedInOrder(id, e.trail) && e.trail.alarmed == []
  }

  /** How far the handler has got with its letters, by where it is. */
  predicate PlaceInv(id: PartyId, e: End) {
    match e.handler
    case Sign => AllPosted(id, e.trail)
    case Broadcast(sent, to, wire, broadcast) => Posting(id, e.trail, Put(wire, broadcast, sent + to), sent, to)
    case TellFinish(f) => f.isSuccess ==> AllPosted(id, e.trail)
    case Done => true
    case _ => e.trail.puts == []
  }

  ghost predicate TrailInv(id: PartyId, e: End) {
    PostInv(id, e) && PlaceInv(id, e) && e.mail <= e.trail.got
  }

  /** Nothing that matters here has changed. */
  predicate SameTrail(e: End, e': End) {
    && e'.trail == e.trail && e'.mail == e.mail && e'.run == e.run
    && (e'.handler == e.handler || (e.handler.Absent? && e'.handler.HearPrepare?))
  }

  lemma SameTrailKeeps(id: PartyId, e: End, e': End)
    requires TrailInv(id, e) && SameTrail(e, e')
    ensures TrailInv(id, e')
  {
  }

  ghost predicate Grows(t: Trail, t': Trail) {
    t'.got == t.got && multiset(Posted(t)) <= multiset(Posted(t'))
  }

  lemma HandlerKeepsTrail(c: SignConfig, id: PartyId, st: Store, e: End, e': End)
    requires SignHandlerStep(c, id, st, e, e') && TrailInv(id, e)
    ensures TrailInv(id, e') && Grows(e.trail, e'.trail)
  {
    if e.handler.Sign? && e'.handler.Broadcast? {
      PuttingOutKeepsTrail(c, id, st, e, e');
    } else if e.handler.Broadcast? {
      SendingKeepsTrail(c, id, st, e, e');
    } else {
      OtherwiseKeepsTrail(c, id, st, e, e');
    }
  }

  lemma PuttingOutKeepsTrail(c: SignConfig, id: PartyId, st: Store, e: End, e': End)
    requires SignHandlerStep(c, id, st, e, e') && TrailInv(id, e) && e.handler.Sign? && e'.handler.Broadcast?
    ensures TrailInv(id, e') && Grows(e.trail, e'.trail)
  {
    var put := Put(e'.handler.wire, e'.handler.broadcast, e'.handler.to);
    assert [] + put.to == put.to;
    StartsPosting(id, e.trail, put);
    PostingInOrder(id, e'.trail, put, [], put.to);
  }

  /** A handler that neither puts out nor posts. */
  lemma OtherwiseKeepsTrail(c: SignConfig, id: PartyId, st: Store, e: End, e': End)
    requires SignHandlerStep(c, id, st, e, e') && TrailInv(id, e)
    requires !e'.handler.Broadcast? && !e.handler.Broadcast?
    ensures TrailInv(id, e') && e'.trail == e.trail
  {
    assert e'.trail == e.trail && e'.mail == e.mail;
    assert e.trail.puts != [] ==> e'.run == e.run;
  }

  lemma SendingKeepsTrail(c: SignConfig, id: PartyId, st: Store, e: End, e': End)
    requires SignHandlerStep(c, id, st, e, e') && TrailInv(id, e) && e.handler.Broadcast?
    ensures TrailInv(id, e') && Grows(e.trail, e'.trail)
  {
    var h := e.handler;
    var put := Put(h.wire, h.broadcast, h.sent + h.to);
    PostingInOrder(id, e.trail, put, h.sent, h.to);
    if h.to != [] && e'.handler.Broadcast? {
      PostsOne(id, e.trail, put, h.sent, h.to);
      assert e'.handler.sent + e'.handler.to == put.to;
      PostingInOrder(id, e'.trail, put, e'.handler.sent, e'.handler.to);
    }
  }

  lemma ReadKeepsTrail(id: PartyId, e: End, e': End, m: Mail)
    requires SignReads(e, e', m) && TrailInv(id, e)
    ensures TrailInv(id, e') && e'.trail == e.trail
  {
  }

  /** The sender of a message that arrives has posted it. */
  lemma SenderKeepsTrail(i: nat, id: PartyId, toId: PartyId, e: End, e': End, t: End, t': End)
    requires SignMails(i, id, toId, e, e', t, t') && TrailInv(id, e)
    ensures TrailInv(id, e') && e'.trail.got == e.trail.got
    ensures multiset(Posted(e'.trail)) == multiset(Posted(e.trail)) + multiset{Letter(toId, Carried(id, e.handler))}
  {
    var h := e.handler;
    var put := Put(h.wire, h.broadcast, h.sent + h.to);
    PostsOne(id, e.trail, put, h.sent, h.to);
    assert (h.sent + [toId]) + h.to[1..] == put.to;
    PostingInOrder(id, e'.trail, put, h.sent + [toId], h.to[1..]);
  }

  /** The message that a sending handler is sending. */
  function Carried(id: PartyId, h: SignHandler): ProcessMsg
    requires h.Broadcast?
  {
    ProcessUpdate(id, h.wire, h.broadcast)
  }

  lemma ReceiverKeepsTrail(i: nat, id: PartyId, toId: PartyId, e: End, e': End, t: End, t': End)
    requires SignMails(i, id, toId, e, e', t, t') && TrailInv(toId, t)
    ensures TrailInv(toId, t')
    ensures t'.trail == t.trail.(got := t.trail.got + multiset{Mail(i, Carried(id, e.handler))})
  {
  }

  // ---- all handlers of a session ----

  function Trails(ends: seq<End>): (ts: seq<Trail>)
    ensures |ts| == |ends| && forall k :: 0 <= k < |ends| ==> ts[k] == ends[k].trail
  {
    seq(|ends|, k requires 0 <= k < |ends| => ends[k].trail)
  }

  ghost predicate MailInv(parties: seq<PartyID>, ends: seq<End>) {
    && |ends| == |parties|
    && (forall i :: 0 <= i < |ends| ==> TrailInv(parties[i].id, ends[i]))
    && Accounted(Ids(parties), Trails(ends))
  }

  lemma OneEndKeepsMail(parties: seq<PartyID>, ends: seq<End>, i: nat, e': End)
    requires MailInv(parties, ends) && i < |ends|
    requires TrailInv(parties[i].id, e') && Grows(ends[i].trail, e'.trail)
    ensures MailInv(parties, ends[i := e'])
  {
    PostingKeepsAccount(Ids(parties), Trails(ends), i, e'.trail);
    assert Trails(ends[i := e']) == Trails(ends)[i := e'.trail];
  }

  lemma MailStepKeepsMail(parties: seq<PartyID>, ends: seq<End>, i: nat, j: nat, e': End, t': End)
    requires MailInv(parties, ends) && i < |ends| && j < |ends| && i != j
    requires SignMails(i, parties[i].id, parties[j].id, ends[i], e', ends[j], t')
    ensures MailInv(parties, ends[i := e'][j := t'])
  {
    var e, t, ends' := ends[i], ends[j], ends[i := e'][j := t'];
    SenderKeepsTrail(i, parties[i].id, parties[j].id, e, e', t, t');
    ReceiverKeepsTrail(i, parties[i].id, parties[j].id, e, e', t, t');
    forall k | 0 <= k < |ends| ensures TrailInv(parties[k].id, ends'[k]) {
      assert TrailInv(parties[k].id, ends[k]);
    }
    LetterArrives(Ids(parties), ends, i, j, Carried(parties[i].id, e.handler), e', t');
  }

  lemma LetterArrives(ids: seq<PartyId>, ends: seq<End>, i: nat, j: nat, m: ProcessMsg, e': End, t': End)
    requires |ids| == |ends| && Accounted(ids, Trails(ends)) && i < |ends| && j < |ends| && i != j
    requires e'.trail.got == ends[i].trail.got
    requires multiset(Posted(e'.trail)) == multiset(Posted(ends[i].trail)) + multiset{Letter(ids[j], m)}
    requires t'.trail == ends[j].trail.(got := ends[j].trail.got + multiset{Mail(i, m)})
    ensures Accounted(ids, Trails(ends[i := e'][j := t']))
  {
    DeliveringKeepsAccount(ids, Trails(ends), i, j, m, e'.trail, t'.trail);
    assert Trails(ends[i := e'][j := t']) == Trails(ends)[i := e'.trail][j := t'.trail];
  }

  /** The coordinator's steps touch no trail. */
  lemma CoordinatorKeepsTrails(c: SignConfig, s: Sys, s': Sys, step: M.Step)
    requires CoordinatorStep(c, s, s', step) && EndsInv(c, s)
    ensures |s'.ends| == |s.ends| && forall k :: 0 <= k < |s.ends| ==> SameTrail(s.ends[k], s'.ends[k])
  {
    if step.LegMoves? {
      var i := step.i;
      EndAt(c, s, i);
      NetEffectKeepsTrail(c, c.co.parties[i].id, s.co.signers, s.co.ctxDone, s.co.legs[i], s'.co.legs[i], step.net,
                          s.ends[i], s'.ends[i]);
    }
  }

  lemma NetEffectKeepsTrail(c: SignConfig, id: PartyId, signers: seq<PartyID>, ctxDone: bool, l: M.Leg, l': M.Leg,
                            net: M.Net, e: End, e': End)
    requires NetEffect(c, id, signers, ctxDone, l.pc, net, e, e') && DownInv(c.co.prepare, signers, l, e)
    ensures SameTrail(e, e')
  {
  }

  lemma SameTrailsKeepMail(parties: seq<PartyID>, ends: seq<End>, ends': seq<End>)
    requires MailInv(parties, ends) && |ends'| == |ends|
    requires forall k :: 0 <= k < |ends| ==> SameTrail(ends[k], ends'[k])
    ensures MailInv(parties, ends')
  {
    assert Trails(ends') == Trails(ends);
    forall k | 0 <= k < |ends| ensures TrailInv(parties[k].id, ends'[k]) {
      SameTrailKeeps(parties[k].id, ends[k], ends'[k]);
    }
  }

  lemma ParticipantKeepsMail(c: SignConfig, s: Sys, s': Sys, step: Step)
    requires MailInv(c.co.parties, s.ends) && NextStep(c, s, s', step) && !step.Coordinator?
    ensures MailInv(c.co.parties, s'.ends)
  {
    match step {
      case StoreMoves(_) =>
      case HandlerMoves(i) =>
        var id := c.co.parties[i].id;
        HandlerKeepsTrail(c, id, s.stores[id], s.ends[i], s'.ends[i]);
        OneEndKeepsMail(c.co.parties, s.ends, i, s'.ends[i]);
      case HandlerReads(i, m) =>
        ReadKeepsTrail(c.co.parties[i].id, s.ends[i], s'.ends[i], m);
        OneEndKeepsMail(c.co.parties, s.ends, i, s'.ends[i]);
      case HandlerMails(i, j) => MailStepKeepsMail(c.co.parties, s.ends, i, j, s'.ends[i], s'.ends[j]);
    }
  }

  lemma NextKeepsMail(c: SignConfig, s: Sys, s': Sys)
    requires Inv(c, s) && MailInv(c.co.parties, s.ends) && Next(c, s, s')
    ensures MailInv(c.co.parties, s'.ends)
  {
    var step :| NextStep(c, s, s', step);
    match step {
      case Coordinator(m) =>
        CoordinatorKeepsTrails(c, s, s', m);
        SameTrailsKeepMail(c.co.parties, s.ends, s'.ends);
      case _ => ParticipantKeepsMail(c, s, s', step);
    }
  }

  ghost predicate InvAndMail(c: SignConfig, s: Sys) {
    Inv(c, s) && MailInv(c.co.parties, s.ends)
  }

  lemma NewEndsMail(parties: seq<PartyID>)
    ensures MailInv(parties, seq(|parties|, _ => NewEnd()))
  {
    var ends := seq(|parties|, _ => NewEnd());
    forall i | 0 <= i < |ends| ensures TrailInv(parties[i].id, ends[i]) {
      assert ends[i] == NewEnd();
    }
    forall i: nat, j | i < |ends| && 0 <= j < |ends|
      ensures Covers(i, Trails(ends)[i], Ids(parties)[j], Trails(ends)[j]) {
    }
  }

  lemma InitMail(c: SignConfig, s: Sys)
    requires Init(c, s)
    ensures InvAndMail(c, s)
  {
    InitKeeps(c, s);
    NewEndsMail(c.co.parties);
  }

  lemma NextKeepsBoth(c: SignConfig, s: Sys, s': Sys)
    requires InvAndMail(c, s) && Next(c, s, s')
    ensures InvAndMail(c, s')
  {
    NextKeepsInv(c, s, s');
    NextKeepsMail(c, s, s');
  }

  lemma {:induction false} RunMail(c: SignConfig, run: seq<Sys>, n: nat)
    requires Run(c, run) && n < |run|
    ensures InvAndMail(c, run[n])
  {
    if n == 0 {
      InitMail(c, run[0]);
    } else {
      RunMail(c, run, n - 1);
      assert Next(c, run[n - 1], run[n - 1 + 1]);
      NextKeepsBoth(c, run[n - 1], run[n]);
    }
  }

  // ---- the theorems ----

  lemma ReachableMail(c: SignConfig, run: seq<Sys>, n: nat)
    requires Run(c, run) && n < |run|
    ensures MailInv(c.co.parties, run[n].ends)
  {
    RunMail(c, run, n);
  }

  lemma ReachableTrail(c: SignConfig, run: seq<Sys>, n: nat, i: nat)
    requires Run(c, run) && n < |run| && i < |run[n].ends|
    ensures i < |c.co.parties| && TrailInv(c.co.parties[i].id, run[n].ends[i])
  {
    ReachableMail(c, run, n);
  }

  /** Who has put out anything signs with the signers that the coordinator selected. */
  lemma PutsAmongSigners(c: SignConfig, run: seq<Sys>, n: nat, i: nat, put: Put)
    requires Run(c, run) && n < |run| && i < |run[n].ends|
    requires put in run[n].ends[i].trail.puts
    ensures i < |c.co.parties| && run[n].co.selected
    ensures Addressed(run[n].co.signers, c.co.parties[i].id, put.to, put.broadcast)
  {
    ReachableTrail(c, run, n, i);
    EndOf(c, run, n, i);
    PhaseOf(c, run, n);
    RunHasSigners(c, run[n].co, i, run[n].ends[i]);
  }

  /** What has arrived was posted. */
  lemma ArrivedWasPosted(parties: seq<PartyID>, ends: seq<End>, j: nat, x: Mail)
    requires MailInv(parties, ends) && j < |ends| && (x in ends[j].trail.got || x in ends[j].mail)
    ensures x.from < |ends| && x.from != j && TrailInv(parties[x.from].id, ends[x.from])
    ensures var letter := Letter(parties[j].id, x.msg);
      && letter in ends[x.from].trail.posted
      && ends[j].trail.got[x] <= multiset(ends[x.from].trail.posted)[letter]
  {
    assert TrailInv(parties[j].id, ends[j]);
    var trails, ids := Trails(ends), Ids(parties);
    assert x in trails[j].got;
    assert Covers(x.from, trails[x.from], ids[j], trails[j]);
    assert x == Mail(x.from, x.msg);
    assert trails[j].got[Mail(x.from, x.msg)] <= multiset(Posted(trails[x.from]))[Letter(ids[j], x.msg)];
    assert TrailInv(parties[x.from].id, ends[x.from]);
    assert Posted(trails[x.from]) == trails[x.from].posted;
  }

  /** A session message that has arrived, read or not, was put out by the signer that it names, with
      these bytes and this flag, for addressees among the signers that its reader is one of. */
  lemma {:induction false} Integrity(c: SignConfig, run: seq<Sys>, n: nat, j: nat, x: Mail)
    requires Run(c, run) && n < |run| && j < |run[n].ends|
    requires x in run[n].ends[j].trail.got || x in run[n].ends[j].mail
    ensures x.from < |run[n].ends| == |c.co.parties| && x.from != j && run[n].co.selected
    ensures var id, to := c.co.parties[x.from].id, c.co.parties[j].id;
      && x.msg.ProcessUpdate? && x.msg.fromPartyId == id
      && exists put :: put in run[n].ends[x.from].trail.puts && put.wire == x.msg.wireBytes
                       && put.broadcast == x.msg.isBroadcast && to in put.to
                       && Addressed(run[n].co.signers, id, put.to, put.broadcast)
  {
    ReachableMail(c, run, n);
    ArrivedWasPosted(c.co.parties, run[n].ends, j, x);
    var sender, id := run[n].ends[x.from], c.co.parties[x.from].id;
    LetterOfPut(id, sender.trail.puts, Letter(c.co.parties[j].id, x.msg));
    var put :| put in sender.trail.puts && x.msg == Update(id, put) && c.co.parties[j].id in put.to;
    PutsAmongSigners(c, run, n, x.from, put);
  }

  /** It arrives no more often than it was posted, and for distinct ids a broadcast no more often than it
      was put out. */
  lemma {:induction false} AtMostOnce(c: SignConfig, run: seq<Sys>, n: nat, j: nat, x: Mail)
    requires Run(c, run) && n < |run| && j < |run[n].ends| && x in run[n].ends[j].trail.got
    ensures x.from < |run[n].ends| == |c.co.parties|
    ensures run[n].ends[j].trail.got[x] <=
      multiset(run[n].ends[x.from].trail.posted)[Letter(c.co.parties[j].id, x.msg)]
    ensures Distinct(Ids(c.co.parties)) && x.msg.ProcessUpdate? && x.msg.isBroadcast ==>
      run[n].ends[j].trail.got[x] <=
        multiset(run[n].ends[x.from].trail.puts)[
          Put(x.msg.wireBytes, true, Others(run[n].co.signers, c.co.parties[x.from].id))]
  {
    ReachableMail(c, run, n);
    ArrivedWasPosted(c.co.parties, run[n].ends, j, x);
    if Distinct(Ids(c.co.parties)) && x.msg.ProcessUpdate? && x.msg.isBroadcast {
      BroadcastCount(c, run, n, x.from, Letter(c.co.parties[j].id, x.msg));
    }
  }

  lemma BroadcastCount(c: SignConfig, run: seq<Sys>, n: nat, i: nat, letter: Letter)
    requires Run(c, run) && n < |run| && i < |run[n].ends| == |c.co.parties| && Distinct(Ids(c.co.parties))
    requires letter.msg.ProcessUpdate? && letter.msg.isBroadcast && letter in run[n].ends[i].trail.posted
    ensures multiset(run[n].ends[i].trail.posted)[letter] <=
      multiset(run[n].ends[i].trail.puts)[
        Put(letter.msg.wireBytes, true, Others(run[n].co.signers, c.co.parties[i].id))]
  {
    ReachableTrail(c, run, n, i);
    var t, id := run[n].ends[i].trail, c.co.parties[i].id;
    LetterOfPut(id, t.puts, letter);
    forall put | put in t.puts ensures Addressed(run[n].co.signers, id, put.to, put.broadcast) && run[n].co.selected {
      PutsAmongSigners(c, run, n, i, put);
    }
    CoordinatorReachable(c, run, n);
    DistinctSigners(c.co, run[n].co);
    PrefixCounts(t.posted, PutLetters(id, t.puts), letter);
    BroadcastLetters(run[n].co.signers, id, t.puts, letter);
  }

  /** The letters of a handler are those of what it put out, in order, cut off in the last at most if it
      fails. */
  lemma {:induction false} SendsWhatIsPutOut(c: SignConfig, run: seq<Sys>, n: nat, i: nat)
    requires Run(c, run) && n < |run| && i < |run[n].ends|
    ensures i < |c.co.parties|
    ensures var e, id := run[n].ends[i], c.co.parties[i].id;
      && PostedInOrder(id, e.trail)
      && (e.handler.Sign? || (e.handler.TellFinish? && e.handler.finish.isSuccess) ==> AllPosted(id, e.trail))
  {
    ReachableTrail(c, run, n, i);
  }

  /** A broadcast after which the event loop went on was posted, as it was put out, once to every other
      signer and never to the sender. */
  lemma {:induction false} BroadcastExactlyOnce(c: SignConfig, run: seq<Sys>, n: nat, i: nat, k: nat, x: PartyId)
    requires Run(c, run) && n < |run| && i < |run[n].ends| == |c.co.parties| && Distinct(Ids(c.co.parties))
    requires var e := run[n].ends[i];
      && k < |e.trail.puts| && e.trail.puts[k].broadcast
      && (k < |e.trail.puts| - 1 || e.handler.Sign? || (e.handler.Broadcast? && e.handler.to == []))
    ensures var t, id := run[n].ends[i].trail, c.co.parties[i].id;
      var before, letters := PutLetters(id, t.puts[..k]), Letters(t.puts[k].to, Update(id, t.puts[k]));
      && before + letters <= t.posted
      && multiset(letters)[Letter(x, ProcessUpdate(id, t.puts[k].wire, true))] ==
           if x in Ids(run[n].co.signers) && x != id then 1 else 0
  {
    ReachableTrail(c, run, n, i);
    var e, id := run[n].ends[i], c.co.parties[i].id;
    if e.handler.Broadcast? && e.handler.to == [] {
      var h := e.handler;
      PostingInOrder(id, e.trail, Put(h.wire, h.broadcast, h.sent + h.to), h.sent, h.to);
    }
    PostedWhole(id, e.trail, k);
    var put := e.trail.puts[k];
    PutsAmongSigners(c, run, n, i, put);
    CoordinatorReachable(c, run, n);
    DistinctSigners(c.co, run[n].co);
    LettersOnce(put.to, Update(id, put), Letter(x, Update(id, put)));
    OthersExact(run[n].co.signers, id, x);
  }
}
