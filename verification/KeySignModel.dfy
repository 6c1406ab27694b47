/**
 * The key signing coordinator as concurrent steps over bounded channels: the goroutine that runs
 * KeySign, one goroutine per listed party in the first phase, one per selected party in the second,
 * and the goroutine that cancels the other ready parties. Select is a free choice among enabled
 * cases. What a stream delivers is free here: the participants are in KeySignSystem.
 */
module KeySignModel {
  import opened Wrappers
  import opened TssTypes

  /** The key data that KeySign found, and the Prepare message that it sends to everyone. */
  datatype Config = Config(parties: seq<PartyID>, threshold: int32, prepare: KeySignPrepare)

  /** A party list fits in a message frame, so its length fits in an int32. */
  predicate WellFormed(c: Config) {
    |c.parties| <= MAX_INT32
  }

  /** How many distinct parties it takes to leave the selection loop. */
  function Quorum(c: Config): nat {
    if c.threshold < 0 then 1 else c.threshold as int + 1
  }

  /** What a goroutine is about to do, or where it has left its stream. */
  datatype Goroutine =
    // first phase
    | Begin
    | DialError(error: GoString)
    | SendPrepare
    | AwaitReady
    | PushReady
    | RejectError(error: GoString)
    | PrepareError(error: GoString)
    | CloseUnready
    // the first phase is over
    | Gone
    | Abandoned
    | Queued
    | TakenToCancel
    | CancelSent
    | Cancelled
    | Chosen
    | Overwritten
    // second phase
    | Begin2
    | AwaitFinish
    | PushFinish(finish: KeySignFinish)
    | PushError2(error: GoString)
    | Left2

  datatype Act = Sent(m: TssP2PMsg) | Got(m: TssP2PMsg) | Closed

  datatype Push = Error1 | Ready1 | Error2 | Finish2 | Dropped2

  /** One listed party: its goroutine, what the coordinator did on its stream (a failed send counts
      as done), and what its goroutines put on the channels. */
  datatype Leg = Leg(pc: Goroutine, acts: seq<Act>, pushes: seq<Push>)

  datatype Main =
    | WaitDials
    | Selecting
    | WaitFinishers
    | Finishing(finishCnt: nat)
    | ClosingStreams(open: set<nat>)
    | ClosingFinishChan
    | ClosingChans
    | Returned

  datatype Canceller =
    | NotStarted
    | Draining(cnt: nat)
    | HasStream(cnt: nat, i: nat)
    | HasSent(cnt: nat, i: nat)
    | Ended

  /** `ready` is readyP2PStreamMap, naming streams by position; `selected` that it passed the
      threshold. `result` is meant once main is past its loops. */
  datatype State = State(
    legs: seq<Leg>,
    main: Main,
    ready: map<PartyId, nat>,
    selected: bool,
    signers: seq<PartyID>,
    result: Result<Signature, GoString>,
    canceller: Canceller,
    errChan: seq<GoString>,
    readyChan: seq<nat>,
    finishChan: seq<KeySignFinish>,
    chansClosed: bool,
    finishClosed: bool,
    ctxDone: bool)

  /** The members of the party list that are in the ready map, in the list's order. */
  function Signers(parties: seq<PartyID>, chosen: set<PartyId>): seq<PartyID> {
    if parties == [] then []
    else (if parties[0].id in chosen then [parties[0]] else []) + Signers(parties[1..], chosen)
  }

  predicate FirstPhaseOver(pc: Goroutine) {
    !(pc.Begin? || pc.DialError? || pc.SendPrepare? || pc.AwaitReady? || pc.PushReady? || pc.RejectError?
      || pc.PrepareError? || pc.CloseUnready?)
  }

  predicate SecondPhase(pc: Goroutine) {
    pc.Begin2? || pc.AwaitFinish? || pc.PushFinish? || pc.PushError2? || pc.Left2?
  }

  // ---- a goroutine's steps that touch no channel ----

  function Did(l: Leg, a: Act): Leg {
    l.(acts := l.acts + [a])
  }

  predicate Errs(l: Leg, l': Leg) {
    l'.pc.PrepareError? && l' == l.(pc := l'.pc)
  }

  predicate Errs2(l: Leg, l': Leg) {
    l'.pc.PushError2? && l' == l.(pc := l'.pc)
  }

  /** What the network does in a step of a goroutine. */
  datatype Net = Quiet | Fails | Delivers(m: TssP2PMsg)

  predicate Moves(c: Config, signers: seq<PartyID>, ctxDone: bool, l: Leg, l': Leg, net: Net) {
    match l.pc
    case Begin =>
      if ctxDone then net.Quiet? && l' == l.(pc := Gone)
      else (match net
            case Quiet => l' == l.(pc := SendPrepare)
            case Fails => l'.pc.DialError? && l' == l.(pc := l'.pc)
            case Delivers(_) => false)
    case DialError(_) => ctxDone && net.Quiet? && l' == l.(pc := Gone)
    case SendPrepare =>
      (match net
       case Quiet => l' == Did(l, Sent(KeySignPrepareMsg(c.prepare))).(pc := AwaitReady)
       case Fails => Errs(Did(l, Sent(KeySignPrepareMsg(c.prepare))), l')
       case Delivers(_) => false)
    case AwaitReady =>
      (match net
       case Quiet => false
       case Fails => Errs(l, l')
       case Delivers(m) =>
         match m
         case KeySignReadyMsg => l' == Did(l, Got(m)).(pc := PushReady)
         case KeySignFinishMsg(f) => l' == Did(l, Got(m)).(pc := RejectError(f.failureReason))
         case _ => Errs(Did(l, Got(m)), l'))
    case PushReady => ctxDone && net.Quiet? && l' == l.(pc := Abandoned)
    case RejectError(_) => ctxDone && net.Quiet? && l' == l.(pc := CloseUnready)
    case CloseUnready => net.Quiet? && l' == Did(l, Closed).(pc := Gone)
    case Begin2 =>
      if ctxDone then net.Quiet? && l' == l.(pc := Left2)
      else (match net
            case Quiet => l' == Did(l, Sent(KeySignStartMsg(signers))).(pc := AwaitFinish)
            case Fails => Errs2(Did(l, Sent(KeySignStartMsg(signers))), l')
            case Delivers(_) => false)
    case AwaitFinish =>
      (match net
       case Quiet => false
       case Fails => Errs2(l, l')
       case Delivers(m) =>
         match m
         case KeySignFinishMsg(f) => l' == Did(l, Got(m)).(pc := PushFinish(f))
         case _ => Errs2(Did(l, Got(m)), l'))
    case _ => false
  }

  // ---- a goroutine's channel sends ----

  predicate Room<T>(chan: seq<T>, capacity: nat) {
    |chan| < capacity
  }

  function Pushed(l: Leg, p: Push, pc: Goroutine): Leg {
    l.(pushes := l.pushes + [p], pc := pc)
  }

  predicate Pushes(c: Config, s: State, s': State, i: nat) {
    && i < |s.legs|
    && var l := s.legs[i];
       match l.pc
       case DialError(error) =>
         && Room(s.errChan, |c.parties|)
         && s' == s.(errChan := s.errChan + [error], legs := s.legs[i := Pushed(l, Error1, Gone)])
       case RejectError(error) =>
         && Room(s.errChan, |c.parties|)
         && s' == s.(errChan := s.errChan + [error], legs := s.legs[i := Pushed(l, Error1, CloseUnready)])
       case PrepareError(error) =>
         && Room(s.errChan, |c.parties|)
         && s' == s.(errChan := s.errChan + [error], legs := s.legs[i := Pushed(l, Error1, CloseUnready)])
       case PushReady =>
         && Room(s.readyChan, |c.parties|)
         && s' == s.(readyChan := s.readyChan + [i], legs := s.legs[i := Pushed(l, Ready1, Queued)])
       case PushError2(error) =>
         if Room(s.errChan, |c.parties|)
         then s' == s.(errChan := s.errChan + [error], legs := s.legs[i := Pushed(l, Error2, Left2)])
         else s' == s.(legs := s.legs[i := Pushed(l, Dropped2, Left2)])
       case PushFinish(finish) =>
         && Room(s.finishChan, |s.ready|)
         && s' == s.(finishChan := s.finishChan + [finish], legs := s.legs[i := Pushed(l, Finish2, Left2)])
       case _ => false
  }

  // ---- KeySign itself ----

  predicate DialsDone(s: State, s': State) {
    && s.main.WaitDials?
    && (forall i :: 0 <= i < |s.legs| ==> FirstPhaseOver(s.legs[i].pc))
    && s' == s.(main := Selecting)
  }

  /** A stream enters the ready map and may push out an earlier one of the same party. */
  function Choose(legs: seq<Leg>, ready: map<PartyId, nat>, id: PartyId, i: nat): seq<Leg>
    requires i < |legs|
  {
    var legs' := if id in ready && ready[id] < |legs|
                 then legs[ready[id] := legs[ready[id]].(pc := Overwritten)] else legs;
    legs'[i := legs[i].(pc := Chosen)]
  }

  function FanOut(legs: seq<Leg>): (r: seq<Leg>)
    ensures |r| == |legs|
    ensures forall k :: 0 <= k < |legs| ==>
      r[k] == if legs[k].pc.Chosen? then legs[k].(pc := Begin2) else legs[k]
  {
    seq(|legs|, k requires 0 <= k < |legs| => if legs[k].pc.Chosen? then legs[k].(pc := Begin2) else legs[k])
  }

  predicate ReadyToTake(c: Config, s: State) {
    s.main.Selecting? && s.readyChan != [] && s.readyChan[0] < |s.legs| == |c.parties|
  }

  /** Taking a ready stream: it enters the map, and past the threshold the others are cancelled,
      the signers are listed and the second phase starts. */
  function AfterReady(c: Config, s: State): State
    requires ReadyToTake(c, s)
  {
    var i := s.readyChan[0];
    var id := c.parties[i].id;
    var ready := s.ready[id := i];
    var legs := Choose(s.legs, s.ready, id, i);
    if |ready| > c.threshold as int then
      s.(readyChan := s.readyChan[1..], ready := ready, selected := true,
         signers := Signers(c.parties, ready.Keys),
         canceller := if |ready| < |c.parties| then Draining(|ready|) else NotStarted,
         legs := FanOut(legs), main := WaitFinishers)
    else
      s.(readyChan := s.readyChan[1..], ready := ready, legs := legs)
  }

  predicate TakesReady(c: Config, s: State, s': State) {
    ReadyToTake(c, s) && s' == AfterReady(c, s)
  }

  /** The streams in the ready map. */
  function Values(ready: map<PartyId, nat>): set<nat> {
    ready.Values
  }

  /** Leaving a loop with an error. The deferred closing of the chosen streams is set up only after
      the selection, so an error before it leaves them open. */
  predicate LeavesWith(s: State, s': State, errChan: seq<GoString>) {
    && s'.result.Failure?
    && ((s.main.Selecting? && s' == s.(main := ClosingChans, result := s'.result, errChan := errChan))
        || (s.main.Finishing? &&
            s' == s.(main := ClosingStreams(Values(s.ready)), result := s'.result, errChan := errChan)))
  }

  predicate FinishersDone(s: State, s': State) {
    && s.main.WaitFinishers?
    && (forall i :: 0 <= i < |s.legs| && SecondPhase(s.legs[i].pc) ==> s.legs[i].pc.Left2?)
    && s' == s.(main := Finishing(0))
  }

  /** Taking a finish message: the first success is the result, and a failure only if all fail. */
  function AfterFinish(s: State): State
    requires s.main.Finishing? && s.finishChan != []
  {
    var f := s.finishChan[0];
    var cnt := s.main.finishCnt + 1;
    var taken := s.(finishChan := s.finishChan[1..]);
    if f.isSuccess then
      taken.(main := ClosingStreams(Values(s.ready)), result := Success(f.signature))
    else if cnt == |s.ready| then
      taken.(main := ClosingStreams(Values(s.ready)), result := Failure(f.failureReason))
    else
      taken.(main := Finishing(cnt))
  }

  predicate TakesFinish(s: State, s': State) {
    s.main.Finishing? && s.finishChan != [] && s' == AfterFinish(s)
  }

  predicate Closes(s: State, s': State, i: nat) {
    match s.main
    case ClosingStreams(open) =>
      if open == {} then s' == s.(main := ClosingFinishChan)
      else i in open && i < |s.legs| &&
           s' == s.(main := ClosingStreams(open - {i}), legs := s.legs[i := Did(s.legs[i], Closed)])
    case ClosingFinishChan => s' == s.(main := ClosingChans, finishClosed := true)
    case ClosingChans => s' == s.(main := Returned, chansClosed := true)
    case _ => false
  }

  // ---- the goroutine that cancels the others ----

  predicate Cancels(c: Config, s: State, s': State) {
    match s.canceller
    case Draining(cnt) =>
      || (s.ctxDone && s' == s.(canceller := Ended))
      || (s.readyChan != [] && s.readyChan[0] < |s.legs| &&
          var i := s.readyChan[0];
          s' == s.(canceller := HasStream(cnt + 1, i), readyChan := s.readyChan[1..],
                   legs := s.legs[i := s.legs[i].(pc := TakenToCancel)]))
      || (s.readyChan == [] && s.chansClosed && s' == s.(canceller := Ended))
    case HasStream(cnt, i) =>
      i < |s.legs| &&
      s' == s.(canceller := HasSent(cnt, i),
               legs := s.legs[i := Did(s.legs[i], Sent(KeySignCancelMsg)).(pc := CancelSent)])
    case HasSent(cnt, i) =>
      i < |s.legs| &&
      s' == s.(canceller := if cnt == |c.parties| then Ended else Draining(cnt),
               legs := s.legs[i := Did(s.legs[i], Closed).(pc := Cancelled)])
    case _ => false
  }

  // ---- all steps ----

  datatype Step =
    | ContextDone
    | LegMoves(i: nat, net: Net)
    | LegPushes(i: nat)
    | MainDialsDone
    | MainTakesReady
    | MainTakesError
    | MainGivesUp
    | MainSeesClosed
    | MainFinishersDone
    | MainTakesFinish
    | MainCloses(i: nat)
    | CancellerMoves

  predicate NextStep(c: Config, s: State, s': State, step: Step) {
    match step
    case ContextDone => s' == s.(ctxDone := true)
    case LegMoves(i, net) =>
      && i < |s.legs| == |s'.legs| && s' == s.(legs := s.legs[i := s'.legs[i]])
      && Moves(c, s.signers, s.ctxDone, s.legs[i], s'.legs[i], net)
    case LegPushes(i) => Pushes(c, s, s', i)
    case MainDialsDone => DialsDone(s, s')
    case MainTakesReady => TakesReady(c, s, s')
    case MainTakesError =>
      && s.errChan != [] && LeavesWith(s, s', s.errChan[1..]) && s'.result == Failure(s.errChan[0])
    case MainGivesUp => s.ctxDone && LeavesWith(s, s', s.errChan)
    case MainSeesClosed =>
      && ((s.main.Selecting? && s.readyChan == [] && s.chansClosed)
          || (s.main.Finishing? && s.finishChan == [] && s.finishClosed))
      && LeavesWith(s, s', s.errChan)
    case MainFinishersDone => FinishersDone(s, s')
    case MainTakesFinish => TakesFinish(s, s')
    case MainCloses(i) => Closes(s, s', i)
    case CancellerMoves => Cancels(c, s, s')
  }

  function NewState(c: Config): State {
    State(seq(|c.parties|, _ => Leg(Begin, [], [])), WaitDials, map[], false, [], Failure([]), NotStarted,
          [], [], [], false, false, false)
  }

  ghost predicate Next(c: Config, s: State, s': State) {
    exists step :: NextStep(c, s, s', step)
  }

  ghost predicate Run(c: Config, run: seq<State>) {
    && |run| > 0 && run[0] == NewState(c)
    && forall k :: 0 <= k < |run| - 1 ==> Next(c, run[k], run[k + 1])
  }

  ghost predicate Reachable(c: Config, s: State) {
    exists run :: Run(c, run) && run[|run| - 1] == s
  }

  lemma ReachableStep(c: Config, s: State, s': State)
    requires Reachable(c, s) && Next(c, s, s')
    ensures Reachable(c, s')
  {
    var run :| Run(c, run) && run[|run| - 1] == s;
    var longer := run + [s'];
    forall k | 0 <= k < |longer| - 1 ensures Next(c, longer[k], longer[k + 1]) {
      if k < |run| - 1 {
        assert Next(c, run[k], run[k + 1]);
      }
    }
    assert Run(c, longer) && longer[|longer| - 1] == s';
  }
}
