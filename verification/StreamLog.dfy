/**
 * The order of messages on a control stream, the same in both protocols: Prepare goes down, Ready up,
 * then one more message down, and one Finish up. `ready` is the protocol's Ready message.
 */
module StreamLog {
  import opened TssTypes

  predicate IsReady(ready: TssP2PMsg) {
    ready.KeyGenReadyMsg? || ready.KeySignReadyMsg?
  }

  predicate FinishOf(ready: TssP2PMsg, m: TssP2PMsg) {
    if ready.KeyGenReadyMsg? then m.KeyGenFinishMsg? else m.KeySignFinishMsg?
  }

  predicate FailureOf(ready: TssP2PMsg, m: TssP2PMsg) {
    if ready.KeyGenReadyMsg? then m.KeyGenFinishMsg? && !m.keyGenFinish.isSuccess
    else m.KeySignFinishMsg? && !m.keySignFinish.isSuccess
  }

  predicate ReadySent(ready: TssP2PMsg, up: seq<TssP2PMsg>) {
    |up| > 0 && up[0] == ready
  }

  /** A participant sends Ready once and a Finish once, and only a failure without a Ready. */
  predicate UpShape(ready: TssP2PMsg, up: seq<TssP2PMsg>) {
    || up == []
    || (|up| == 1 && up[0] == ready)
    || (|up| == 1 && FailureOf(ready, up[0]))
    || (|up| == 2 && up[0] == ready && FinishOf(ready, up[1]))
  }

  /** The order in which the two ends have sent: the participant answers Prepare, the coordinator
      answers Ready, and only a failure may cross what the coordinator sends. */
  predicate InOrder(ready: TssP2PMsg, down: seq<TssP2PMsg>, up: seq<TssP2PMsg>, log: seq<TssP2PMsg>) {
    if |down| == 0 then log == up && |up| <= 1 && (up != [] ==> FailureOf(ready, up[0]))
    else if |up| == 0 then log == down && |down| == 1
    else if up[0] == ready then
      if |down| == 1 then log == down + up && (|up| == 2 ==> FailureOf(ready, up[1]))
      else
        || log == [down[0], up[0], down[1]] + up[1..]
        || (log == [down[0]] + up + [down[1]] && |up| == 2 && FailureOf(ready, up[1]))
    else |down| == 1 && |up| == 1 && FailureOf(ready, up[0]) && (log == down + up || log == up + down)
  }

  lemma SendingDownKeepsOrder(ready: TssP2PMsg, down: seq<TssP2PMsg>, up: seq<TssP2PMsg>, log: seq<TssP2PMsg>,
                              m: TssP2PMsg)
    requires IsReady(ready) && InOrder(ready, down, up, log) && UpShape(ready, up)
    requires down == [] || (|down| == 1 && ReadySent(ready, up))
    ensures InOrder(ready, down + [m], up, log + [m])
  {
    if |up| == 2 {
      assert up == [up[0], up[1]];
    }
  }

  lemma SendingUpKeepsOrder(ready: TssP2PMsg, down: seq<TssP2PMsg>, up: seq<TssP2PMsg>, log: seq<TssP2PMsg>,
                            m: TssP2PMsg)
    requires IsReady(ready) && InOrder(ready, down, up, log) && |down| <= 2 && (|down| == 2 ==> ReadySent(ready, up))
    requires m == ready ==> up == [] && |down| > 0
    requires m != ready ==>
      FinishOf(ready, m) && (up == [] || up == [ready]) && (FailureOf(ready, m) || (up == [ready] && |down| == 2))
    ensures InOrder(ready, down, up + [m], log + [m])
  {
    assert up != [] ==> log + [m] == [log[0]] + log[1..] + [m];
  }
}
