/** The session messages of key generation: what arrives is what was sent, to whom it was sent, and no
    more often than it was sent. */
module KeyGenMail {
  import opened Wrappers
  import opened TssTypes
  import opened SeqLemmas
  import opened KeyStore
  import opened Routing
  import opened Mailing
  import opened KeyGenModel
  import opened KeyGenInvariant

  // ---- one handler ----

  /** The handler has not come to its event loop. */
  predicate BeforeLoop(h: Handler) {
    || h.NoHandler? || h.AwaitPrepare? || h.Refused? || h.CheckStore? || h.Validating?
    || h.SendReady? || h.AwaitStart?
  }

  /** What is put out is addressed, posted in order, and so is the alarm. */
  ghost predicate PostInv(parties: seq<PartyID>, id: PartyId, t: Trail) {
    && (forall put :: put in t.puts ==> Addressed(parties, id, put.to, put.broadcast))
    && PostedInOrder(id, t) && Alarmed(parties, id, t)
  }

  /** How far the handler has got with its letters, by where it is. */
  predicate PlaceInv(parties: seq<PartyID>, id: PartyId, l: Leg) {
    match l.handler
    case Running => AllPosted(id, l.trail) && l.trail.alarm.None?
    case Sending(sent, to, wire, broadcast) =>
      Posting(id, l.trail, Put(wire, broadcast, sent + to), sent, to) && l.trail.alarm.None?
    case Failing(_) => l.trail.alarm.None?
    case Alarming(to, reason) => AlarmLeft(parties, id, l.trail, to, reason)
    case Finishing(f) => if f.isSuccess then Succeeds(id, l.trail) else AlarmOver(parties, id, l.trail)
    case Over => Succeeds(id, l.trail) || AlarmOver(parties, id, l.trail)
    case _ => l.trail.puts == [] && l.trail.alarm.None?
  }

  predicate Succeeds(id: PartyId, t: Trail) {
    AllPosted(id, t) && t.alarm.None?
  }

  /** Every other member has been told of the failure, if there was one. */
  predicate AlarmOver(parties: seq<PartyID>, id: PartyId, t: Trail) {
    t.alarm.Some? ==> t.alarmed == Letters(Others(parties, id), ProcessError(t.alarm.value))
  }

  ghost predicate TrailInv(parties: seq<PartyID>, id: PartyId, l: Leg) {
    PostInv(parties, id, l.trail) && PlaceInv(parties, id, l) && l.mail <= l.trail.got
  }

  /** Nothing that matters here has changed. */
  predicate SameTrail(l: Leg, l': Leg) {
    && l'.trail == l.trail && l'.mail == l.mail
    && (l'.handler == l.handler || (l.handler.NoHandler? && l'.handler.AwaitPrepare?))
  }

  lemma SameTrailKeeps(parties: seq<PartyID>, id: PartyId, l: Leg, l': Leg)
    requires TrailInv(parties, id, l) && SameTrail(l, l')
    ensures TrailInv(parties, id, l')
  {
  }

  /** A handler posts at most, and gets nothing. */
  ghost predicate Grows(t: Trail, t': Trail) {
    t'.got == t.got && multiset(Posted(t)) <= multiset(Posted(t'))
  }

  /** The handler works on this Prepare, if on any. */
  predicate WorksOn(p: KeyGenPrepare, l: Leg) {
    l.prepare.Some? ==> l.prepare == Some(p)
  }

  lemma HandlerKeepsTrail(c: Config, p: KeyGenPrepare, id: PartyId, l: Leg, l': Leg)
    requires WorksOn(p, l) && HandlerStep(c, id, l, l') && TrailInv(p.allPartyId, id, l)
    ensures TrailInv(p.allPartyId, id, l') && Grows(l.trail, l'.trail)
  {
    if l.handler.Running? && l'.handler.Sending? {
      PuttingOutKeepsTrail(c, p, id, l, l');
    } else if l.handler.Sending? {
      SendingKeepsTrail(c, p.allPartyId, id, l, l');
    } else if l.handler.Alarming? {
      AlarmingKeepsTrail(c, p.allPartyId, id, l, l');
    } else {
      assert l'.trail == l.trail && l'.mail == l.mail;
      assert PlaceInv(p.allPartyId, id, l');
    }
  }

  lemma AlarmingKeepsTrail(c: Config, parties: seq<PartyID>, id: PartyId, l: Leg, l': Leg)
    requires HandlerStep(c, id, l, l') && TrailInv(parties, id, l) && l.handler.Alarming?
    ensures TrailInv(parties, id, l') && Grows(l.trail, l'.trail)
  {
    if l.handler.to != [] {
      AlarmsOne(parties, id, l.trail, l.handler.to, l.handler.reason);
      AlarmLeftIsAlarmed(parties, id, l'.trail, l'.handler.to, l.handler.reason);
    }
  }

  lemma PuttingOutKeepsTrail(c: Config, p: KeyGenPrepare, id: PartyId, l: Leg, l': Leg)
    requires WorksOn(p, l) && HandlerStep(c, id, l, l') && TrailInv(p.allPartyId, id, l)
    requires l.handler.Running? && l'.handler.Sending?
    ensures TrailInv(p.allPartyId, id, l') && Grows(l.trail, l'.trail)
  {
    var put := Put(l'.handler.wire, l'.handler.broadcast, l'.handler.to);
    assert [] + put.to == put.to;
    StartsPosting(id, l.trail, put);
    PostingInOrder(id, l'.trail, put, [], put.to);
  }

  lemma SendingKeepsTrail(c: Config, parties: seq<PartyID>, id: PartyId, l: Leg, l': Leg)
    requires HandlerStep(c, id, l, l') && TrailInv(parties, id, l) && l.handler.Sending?
    ensures TrailInv(parties, id, l') && Grows(l.trail, l'.trail)
  {
    var h := l.handler;
    var put := Put(h.wire, h.broadcast, h.sent + h.to);
    PostingInOrder(id, l.trail, put, h.sent, h.to);
    if h.to != [] && l'.handler.Sending? {
      PostsOne(id, l.trail, put, h.sent, h.to);
      assert l'.handler.sent + l'.handler.to == put.to;
      PostingInOrder(id, l'.trail, put, l'.handler.sent, l'.handler.to);
    }
  }

  lemma UpdateKeepsTrail(parties: seq<PartyID>, id: PartyId, l: Leg, l': Leg, m: Mail)
    requires UpdateStep(l, l', m) && TrailInv(parties, id, l)
    ensures TrailInv(parties, id, l') && l'.trail == l.trail
  {
  }

  lemma StoreKeepsTrail(c: Config, p: KeyGenPrepare, id: PartyId, l: Leg, l': Leg, st: Store, st': Store,
                        op: StoreOp, ok: bool)
    requires WorksOn(p, l) && StoreStep(id, l, l', st, st', op, ok) && TrailInv(p.allPartyId, id, l)
    ensures TrailInv(p.allPartyId, id, l') && Grows(l.trail, l'.trail)
  {
    if l.handler.Failing? {
      var to, reason := Others(p.allPartyId, id), l.handler.reason;
      assert l'.trail.alarmed + Letters(to, ProcessError(reason)) == Letters(to, ProcessError(reason));
    }
  }

  lemma UpdateSenderKeepsTrail(parties: seq<PartyID>, i: nat, id: PartyId, toId: PartyId,
                               l: Leg, l': Leg, to: Leg, to': Leg)
    requires MailStep(i, id, toId, l, l', to, to') && TrailInv(parties, id, l) && l.handler.Sending?
    ensures TrailInv(parties, id, l') && l'.trail.got == l.trail.got
    ensures multiset(Posted(l'.trail)) == multiset(Posted(l.trail)) + multiset{Letter(toId, Carried(id, l.handler))}
  {
    var h := l.handler;
    var put := Put(h.wire, h.broadcast, h.sent + h.to);
    PostsOne(id, l.trail, put, h.sent, h.to);
    assert (h.sent + [toId]) + h.to[1..] == put.to;
    PostingInOrder(id, l'.trail, put, h.sent + [toId], h.to[1..]);
  }

  /** The sender of a message that arrives has posted it. */
  lemma SenderKeepsTrail(parties: seq<PartyID>, i: nat, id: PartyId, toId: PartyId, l: Leg, l': Leg, to: Leg, to': Leg)
    requires MailStep(i, id, toId, l, l', to, to') && TrailInv(parties, id, l)
    ensures TrailInv(parties, id, l') && l'.trail.got == l.trail.got
    ensures multiset(Posted(l'.trail)) == multiset(Posted(l.trail)) + multiset{Letter(toId, Carried(id, l.handler))}
  {
    if l.handler.Sending? {
      UpdateSenderKeepsTrail(parties, i, id, toId, l, l', to, to');
    } else {
      AlarmsOne(parties, id, l.trail, l.handler.to, l.handler.reason);
      AlarmLeftIsAlarmed(parties, id, l'.trail, l'.handler.to, l.handler.reason);
    }
  }

  /** The message that a sending or alarming handler is sending. */
  function Carried(id: PartyId, h: Handler): ProcessMsg
    requires h.Sending? || h.Alarming?
  {
    if h.Sending? then ProcessUpdate(id, h.wire, h.broadcast) else ProcessError(h.reason)
  }

  lemma ReceiverKeepsTrail(parties: seq<PartyID>, i: nat, id: PartyId, toId: PartyId,
                           l: Leg, l': Leg, to: Leg, to': Leg)
    requires MailStep(i, id, toId, l, l', to, to') && TrailInv(parties, toId, to)
    ensures TrailInv(parties, toId, to')
    ensures to'.trail == to.trail.(got := to.trail.got + multiset{Mail(i, Carried(id, l.handler))})
  {
  }

  // ---- all handlers of a session ----

  function Trails(legs: seq<Leg>): (ts: seq<Trail>)
    ensures |ts| == |legs| && forall k :: 0 <= k < |legs| ==> ts[k] == legs[k].trail
  {
    seq(|legs|, k requires 0 <= k < |legs| => legs[k].trail)
  }

  ghost predicate MailInv(ses: Session) {
    && |ses.legs| == |ses.req.parties|
    && (forall i :: 0 <= i < |ses.legs| ==> TrailInv(ses.req.parties, ses.req.parties[i].id, ses.legs[i]))
    && Accounted(Ids(ses.req.parties), Trails(ses.legs))
  }

  lemma OneLegKeepsMail(ses: Session, ses': Session, i: nat, l': Leg)
    requires MailInv(ses) && OneLeg(ses, ses', i, l')
    requires TrailInv(ses.req.parties, ses.req.parties[i].id, l') && Grows(ses.legs[i].trail, l'.trail)
    ensures MailInv(ses')
  {
    PostingKeepsAccount(Ids(ses.req.parties), Trails(ses.legs), i, l'.trail);
    assert Trails(ses'.legs) == Trails(ses.legs)[i := l'.trail];
  }

  lemma MailStepKeepsMail(ses: Session, ses': Session, i: nat, j: nat)
    requires MailInv(ses) && i < |ses.legs| && j < |ses.legs| == |ses'.legs| && i != j
    requires ses' == ses.(legs := ses.legs[i := ses'.legs[i]][j := ses'.legs[j]])
    requires MailStep(i, ses.req.parties[i].id, ses.req.parties[j].id,
                      ses.legs[i], ses'.legs[i], ses.legs[j], ses'.legs[j])
    ensures MailInv(ses')
  {
    var parties := ses.req.parties;
    var l, l', t, t' := ses.legs[i], ses'.legs[i], ses.legs[j], ses'.legs[j];
    SenderKeepsTrail(parties, i, parties[i].id, parties[j].id, l, l', t, t');
    ReceiverKeepsTrail(parties, i, parties[i].id, parties[j].id, l, l', t, t');
    forall k | 0 <= k < |ses.legs| ensures TrailInv(parties, parties[k].id, ses'.legs[k]) {
      assert TrailInv(parties, parties[k].id, ses.legs[k]);
    }
    LetterArrives(ses, ses', i, j, Carried(parties[i].id, l.handler));
  }

  lemma LetterArrives(ses: Session, ses': Session, i: nat, j: nat, m: ProcessMsg)
    requires |ses.legs| == |ses.req.parties| && Accounted(Ids(ses.req.parties), Trails(ses.legs))
    requires i < |ses.legs| && j < |ses.legs| == |ses'.legs| && i != j
    requires ses'.legs == ses.legs[i := ses'.legs[i]][j := ses'.legs[j]]
    requires ses'.legs[i].trail.got == ses.legs[i].trail.got
    requires multiset(Posted(ses'.legs[i].trail)) ==
      multiset(Posted(ses.legs[i].trail)) + multiset{Letter(ses.req.parties[j].id, m)}
    requires ses'.legs[j].trail == ses.legs[j].trail.(got := ses.legs[j].trail.got + multiset{Mail(i, m)})
    ensures Accounted(Ids(ses.req.parties), Trails(ses'.legs))
  {
    var ti, tj := ses'.legs[i].trail, ses'.legs[j].trail;
    DeliveringKeepsAccount(Ids(ses.req.parties), Trails(ses.legs), i, j, m, ti, tj);
    assert Trails(ses'.legs) == Trails(ses.legs)[i := ti][j := tj];
  }

  /** The coordinator's own steps touch no handler. */
  lemma SameTrailsKeepMail(ses: Session, ses': Session)
    requires MailInv(ses) && ses'.req == ses.req && |ses'.legs| == |ses.legs|
    requires forall k :: 0 <= k < |ses.legs| ==> SameTrail(ses.legs[k], ses'.legs[k])
    ensures MailInv(ses')
  {
    assert Trails(ses'.legs) == Trails(ses.legs);
    forall k | 0 <= k < |ses.legs| ensures TrailInv(ses.req.parties, ses.req.parties[k].id, ses'.legs[k]) {
      SameTrailKeeps(ses.req.parties, ses.req.parties[k].id, ses.legs[k], ses'.legs[k]);
    }
  }

  lemma TakeKeepsTrails(ses: Session, ses': Session, i: nat)
    requires TakeReady(ses, ses', i) || TakeError(ses, ses', i) || TakeFinish(ses, ses', i)
    ensures |ses'.legs| == |ses.legs| && ses'.req == ses.req
    ensures forall k :: 0 <= k < |ses.legs| ==> SameTrail(ses.legs[k], ses'.legs[k])
  {
  }

  lemma LegStepKeepsMail(c: Config, stores: map<PartyId, Store>, stores': map<PartyId, Store>, sid: SessionId,
                         ses: Session, ses': Session, step: Step)
    requires SessionInv(c, stores, sid, ses) && MailInv(ses)
    requires
      || (step.GoroutineMoves? && step.sid == sid)
      || step.HandlerMoves? || step.HandlerReads? || step.HandlerStores?
    requires SessionStep(c, stores, stores', ses, ses', step)
    ensures MailInv(ses')
  {
    var i := step.i;
    var l, l', p, id := ses.legs[i], ses'.legs[i], PrepareOf(sid, ses.req), ses.req.parties[i].id;
    assert LegInv(c, stores, sid, ses.req, i, l) && TrailInv(p.allPartyId, id, l);
    match step {
      case GoroutineMoves(_, _) =>
        GoroutineSameTrail(c, p, id, l, l');
        SameTrailKeeps(p.allPartyId, id, l, l');
      case HandlerMoves(_, _) => HandlerKeepsTrail(c, p, id, l, l');
      case HandlerReads(_, _, m) => UpdateKeepsTrail(p.allPartyId, id, l, l', m);
      case HandlerStores(_, _, op, ok) => StoreKeepsTrail(c, p, id, l, l', stores[id], stores'[id], op, ok);
    }
    OneLegKeepsMail(ses, ses', i, l');
  }

  lemma GoroutineSameTrail(c: Config, p: KeyGenPrepare, id: PartyId, l: Leg, l': Leg)
    requires DownInv(p, l) && GoroutineStep(c, p, id, l, l')
    ensures SameTrail(l, l')
  {
  }

  lemma SessionStepKeepsMail(c: Config, stores: map<PartyId, Store>, stores': map<PartyId, Store>, sid: SessionId,
                             ses: Session, ses': Session, step: Step)
    requires SessionInv(c, stores, sid, ses) && MailInv(ses) && !step.StartSession? && step.sid == sid
    requires SessionStep(c, stores, stores', ses, ses', step)
    ensures MailInv(ses')
  {
    match step {
      case ContextDone(_) => SameTrailsKeepMail(ses, ses');
      case MainGivesUp(_) => SameTrailsKeepMail(ses, ses');
      case MainTakesReady(_, i) => TakeKeepsTrails(ses, ses', i); SameTrailsKeepMail(ses, ses');
      case MainTakesError(_, i) => TakeKeepsTrails(ses, ses', i); SameTrailsKeepMail(ses, ses');
      case MainTakesFinish(_, i) => TakeKeepsTrails(ses, ses', i); SameTrailsKeepMail(ses, ses');
      case HandlerMails(_, i, j) => MailStepKeepsMail(ses, ses', i, j);
      case _ => LegStepKeepsMail(c, stores, stores', sid, ses, ses', step);
    }
  }

  lemma NewSessionMail(req: Request)
    ensures MailInv(NewSession(req))
  {
    var ses := NewSession(req);
    forall i | 0 <= i < |ses.legs| ensures TrailInv(req.parties, req.parties[i].id, ses.legs[i]) {
      assert ses.legs[i] == NewLeg();
    }
    forall i: nat, j | i < |ses.legs| && 0 <= j < |ses.legs|
      ensures Covers(i, Trails(ses.legs)[i], Ids(req.parties)[j], Trails(ses.legs)[j]) {
    }
  }

  ghost predicate AllMail(s: State) {
    forall sid :: sid in s.sessions ==> MailInv(s.sessions[sid])
  }

  lemma NextKeepsMail(c: Config, s: State, s': State)
    requires Inv(c, s) && AllMail(s) && Next(c, s, s')
    ensures AllMail(s')
  {
    var step :| NextStep(c, s, s', step);
    if step.StartSession? {
      NewSessionMail(step.req);
    } else {
      var sid := step.sid;
      SessionStepKeepsMail(c, s.stores, s'.stores, sid, s.sessions[sid], s'.sessions[sid], step);
    }
  }

  ghost predicate InvAndMail(c: Config, s: State) {
    Inv(c, s) && AllMail(s)
  }

  lemma NextKeepsBoth(c: Config, s: State, s': State)
    requires InvAndMail(c, s) && Next(c, s, s')
    ensures InvAndMail(c, s')
  {
    NextKeepsInv(c, s, s');
    NextKeepsMail(c, s, s');
  }

  lemma {:induction false} RunMail(c: Config, run: seq<State>, n: nat)
    requires Run(c, run) && n < |run|
    ensures InvAndMail(c, run[n])
  {
    if n > 0 {
      RunMail(c, run, n - 1);
      assert Next(c, run[n - 1], run[n - 1 + 1]);
      NextKeepsBoth(c, run[n - 1], run[n]);
    }
  }

  // ---- the theorems ----

  lemma ReachableMail(c: Config, run: seq<State>, n: nat, sid: SessionId)
    requires Run(c, run) && n < |run| && sid in run[n].sessions
    ensures MailInv(run[n].sessions[sid])
  {
    RunMail(c, run, n);
  }

  lemma ReachableTrail(c: Config, run: seq<State>, n: nat, sid: SessionId, i: nat)
    requires Run(c, run) && n < |run| && sid in run[n].sessions && i < |run[n].sessions[sid].legs|
    ensures var ses := run[n].sessions[sid];
      i < |ses.req.parties| && TrailInv(ses.req.parties, ses.req.parties[i].id, ses.legs[i])
  {
    ReachableMail(c, run, n, sid);
  }

  /** A session message that has arrived, read or not, was put out by the participant that it names, with
      these bytes and this flag, for addressees that its reader is one of; an error is the one that the
      sender raised the alarm for. */
  lemma {:induction false} Integrity(c: Config, run: seq<State>, n: nat, sid: SessionId, j: nat, x: Mail)
    requires Run(c, run) && n < |run| && sid in run[n].sessions && j < |run[n].sessions[sid].legs|
    requires x in run[n].sessions[sid].legs[j].trail.got || x in run[n].sessions[sid].legs[j].mail
    ensures var ses := run[n].sessions[sid];
      x.from < |ses.legs| == |ses.req.parties| && x.from != j
    ensures var ses := run[n].sessions[sid];
      var sender, id, to := ses.legs[x.from].trail, ses.req.parties[x.from].id, ses.req.parties[j].id;
      match x.msg
      case ProcessUpdate(from, wire, broadcast) =>
        from == id
        && exists put :: put in sender.puts && put.wire == wire && put.broadcast == broadcast && to in put.to
                         && Addressed(ses.req.parties, id, put.to, broadcast)
      case ProcessError(reason) => sender.alarm == Some(reason) && to in Others(ses.req.parties, id)
  {
    ReachableMail(c, run, n, sid);
    var ses := run[n].sessions[sid];
    ArrivedWasPosted(ses, j, x);
    var sender, id, to := ses.legs[x.from], ses.req.parties[x.from].id, ses.req.parties[j].id;
    LetterMeaning(ses.req.parties, id, sender.trail, Letter(to, x.msg));
  }

  /** What has arrived was posted. */
  lemma ArrivedWasPosted(ses: Session, j: nat, x: Mail)
    requires MailInv(ses) && j < |ses.legs| && (x in ses.legs[j].trail.got || x in ses.legs[j].mail)
    ensures x.from < |ses.legs| && x.from != j
    ensures TrailInv(ses.req.parties, ses.req.parties[x.from].id, ses.legs[x.from])
    ensures var letter := Letter(ses.req.parties[j].id, x.msg);
      && letter in Posted(ses.legs[x.from].trail)
      && ses.legs[j].trail.got[x] <= multiset(Posted(ses.legs[x.from].trail))[letter]
  {
    assert TrailInv(ses.req.parties, ses.req.parties[j].id, ses.legs[j]);
    var trails, ids := Trails(ses.legs), Ids(ses.req.parties);
    assert x in trails[j].got;
    assert Covers(x.from, trails[x.from], ids[j], trails[j]);
    assert x == Mail(x.from, x.msg);
    assert trails[j].got[Mail(x.from, x.msg)] <= multiset(Posted(trails[x.from]))[Letter(ids[j], x.msg)];
  }

  lemma LetterMeaning(parties: seq<PartyID>, id: PartyId, t: Trail, x: Letter)
    requires PostInv(parties, id, t) && x in Posted(t)
    ensures match x.msg
            case ProcessUpdate(from, wire, broadcast) =>
              from == id
              && exists put :: put in t.puts && put.wire == wire && put.broadcast == broadcast && x.to in put.to
                               && Addressed(parties, id, put.to, broadcast)
            case ProcessError(reason) => t.alarm == Some(reason) && x.to in Others(parties, id)
  {
    if x in t.posted {
      LetterOfPut(id, t.puts, x);
    } else {
      assert t.alarm.Some?;
      var all := Letters(Others(parties, id), ProcessError(t.alarm.value));
      assert x in all;
    }
  }

  /** It arrives no more often than it was posted: for distinct ids, a broadcast no more often than it
      was put out, and an error once at most. */
  lemma {:induction false} AtMostOnce(c: Config, run: seq<State>, n: nat, sid: SessionId, j: nat, x: Mail)
    requires Run(c, run) && n < |run| && sid in run[n].sessions && j < |run[n].sessions[sid].legs|
    requires x in run[n].sessions[sid].legs[j].trail.got
    ensures var ses := run[n].sessions[sid];
      && x.from < |ses.legs| == |ses.req.parties|
      && ses.legs[j].trail.got[x] <= multiset(Posted(ses.legs[x.from].trail))[Letter(ses.req.parties[j].id, x.msg)]
    ensures var ses := run[n].sessions[sid];
      Distinct(Ids(ses.req.parties)) ==>
        match x.msg
        case ProcessUpdate(_, wire, broadcast) =>
          var put := Put(wire, true, Others(ses.req.parties, ses.req.parties[x.from].id));
          broadcast ==> ses.legs[j].trail.got[x] <= multiset(ses.legs[x.from].trail.puts)[put]
        case ProcessError(_) => ses.legs[j].trail.got[x] == 1
  {
    ReachableMail(c, run, n, sid);
    var ses := run[n].sessions[sid];
    ArrivedWasPosted(ses, j, x);
    if Distinct(Ids(ses.req.parties)) {
      LetterCount(ses.req.parties, ses.req.parties[x.from].id, ses.legs[x.from].trail,
                  Letter(ses.req.parties[j].id, x.msg));
    }
  }

  lemma LetterCount(parties: seq<PartyID>, id: PartyId, t: Trail, x: Letter)
    requires PostInv(parties, id, t) && Distinct(Ids(parties))
    ensures x.msg.ProcessUpdate? && x.msg.isBroadcast ==>
      multiset(Posted(t))[x] <= multiset(t.puts)[Put(x.msg.wireBytes, true, Others(parties, id))]
    ensures x.msg.ProcessError? ==> multiset(Posted(t))[x] <= 1
  {
    PrefixCounts(t.posted, PutLetters(id, t.puts), x);
    if x.msg.ProcessUpdate? {
      assert x !in t.alarmed;
      if x.msg.isBroadcast {
        BroadcastLetters(parties, id, t.puts, x);
      }
    } else {
      if x in PutLetters(id, t.puts) {
        LetterOfPut(id, t.puts, x);
      }
      if t.alarm.Some? {
        var others, m := Others(parties, id), ProcessError(t.alarm.value);
        PrefixCounts(t.alarmed, Letters(others, m), x);
        LettersOnce(others, m, x);
        OthersExact(parties, id, x.to);
      }
    }
  }

  /** The letters of a handler are those of what it put out, in order, cut off in the last at most if it
      fails; once it is done with a failure, every other member has been told of it. */
  lemma {:induction false} SendsWhatIsPutOut(c: Config, run: seq<State>, n: nat, sid: SessionId, i: nat)
    requires Run(c, run) && n < |run| && sid in run[n].sessions
    requires i < |run[n].sessions[sid].legs| == |run[n].sessions[sid].req.parties|
    ensures var ses := run[n].sessions[sid];
      var l, id := ses.legs[i], ses.req.parties[i].id;
      && PostedInOrder(id, l.trail)
      && (l.handler.Running? || (l.handler.Finishing? && l.handler.finish.isSuccess) ==> AllPosted(id, l.trail))
      && (l.trail.alarm.Some? && (l.handler.Finishing? || l.handler.Over?) ==>
            l.trail.alarmed == Letters(Others(ses.req.parties, id), ProcessError(l.trail.alarm.value)))
  {
    ReachableTrail(c, run, n, sid, i);
  }

  /** A broadcast after which the event loop went on was posted, as it was put out, once to every other
      member and never to the sender. */
  lemma {:induction false} BroadcastExactlyOnce(c: Config, run: seq<State>, n: nat, sid: SessionId, i: nat, k: nat,
                                                x: PartyId)
    requires Run(c, run) && n < |run| && sid in run[n].sessions
    requires i < |run[n].sessions[sid].legs| == |run[n].sessions[sid].req.parties|
    requires var l := run[n].sessions[sid].legs[i];
      && k < |l.trail.puts| && l.trail.puts[k].broadcast
      && (k < |l.trail.puts| - 1 || l.handler.Running? || (l.handler.Sending? && l.handler.to == []))
    requires Distinct(Ids(run[n].sessions[sid].req.parties))
    ensures var ses := run[n].sessions[sid];
      var t, id := ses.legs[i].trail, ses.req.parties[i].id;
      var before, letters := PutLetters(id, t.puts[..k]), Letters(t.puts[k].to, Update(id, t.puts[k]));
      && before + letters <= t.posted
      && multiset(letters)[Letter(x, ProcessUpdate(id, t.puts[k].wire, true))] ==
           if x in Ids(ses.req.parties) && x != id then 1 else 0
  {
    ReachableTrail(c, run, n, sid, i);
    var ses := run[n].sessions[sid];
    var l, id := ses.legs[i], ses.req.parties[i].id;
    if l.handler.Sending? && l.handler.to == [] {
      var h := l.handler;
      PostingInOrder(id, l.trail, Put(h.wire, h.broadcast, h.sent + h.to), h.sent, h.to);
    }
    PostedWhole(id, l.trail, k);
    var put := l.trail.puts[k];
    assert put in l.trail.puts;
    LettersOnce(put.to, Update(id, put), Letter(x, Update(id, put)));
    OthersExact(ses.req.parties, id, x);
  }
}
