/** How sharp the redelivery bound of RunQueue is, and exactly when it holds. */
module RunQueueBound {
  import opened Common
  import opened RunQueue

  // Worker 0 holds message 0 and is slow; worker 1 claims it and crashes, again and again.
  const LEAD := [Enqueue(true), Start, Start, Read(0)]
  const CYCLE := [Claim(1, [0]), Check(1, true), Crash(1)]

  function Cycles(k: nat): seq<Action> {
    if k == 0 then LEAD else Cycles(k - 1) + CYCLE
  }

  /** The state after k such claims. */
  function After(k: nat): State {
    State([Message(true, 1 + k, 1, k, 0)], 1, {0}, {}, [Running(0), Idle], [], {}, {})
  }

  lemma Then(max: nat, s: State, actions: seq<Action>, a: Action)
    ensures Run(max, s, actions + [a]) == Step(max, Run(max, s, actions), a)
  {
    IterateThen(Stepper(max), s, actions, a);
  }

  lemma LeadRun(max: nat)
    ensures Run(max, INIT, LEAD) == After(0)
  {
    Then(max, INIT, [], Enqueue(true));
    Then(max, INIT, [Enqueue(true)], Start);
    Then(max, INIT, [Enqueue(true), Start], Start);
    Then(max, INIT, [Enqueue(true), Start, Start], Read(0));
    assert [] + [Enqueue(true)] == [Enqueue(true)];
    assert [Enqueue(true)] + [Start] == [Enqueue(true), Start];
    assert [Enqueue(true), Start] + [Start] == [Enqueue(true), Start, Start];
    assert [Enqueue(true), Start, Start] + [Read(0)] == LEAD;
    assert [Idle] + [Idle] == [Idle, Idle] && [] + [Idle] == [Idle];
    assert Run(max, INIT, [Enqueue(true), Start, Start]) == READY;
    FirstRead();
  }

  const READY := INIT.(messages := [Message(true, 0, 0, 0, 0)], workers := [Idle, Idle])

  lemma FirstRead()
    ensures StepRead(READY, 0) == After(0)
  {
    var t := StepRead(READY, 0);
    assert t.messages == [Message(true, 1, 1, 0, 0)];
    assert t.workers == [Running(0), Idle];
    assert t.pending == {0};
  }

  function Claimed1(k: nat): State {
    After(k).(messages := [Message(true, 2 + k, 1, k, 0)], workers := [Running(0), Checking([Claimed(0, 2 + k)])])
  }

  lemma ClaimOne(k: nat)
    ensures StepClaim(After(k), 1, [0]) == Claimed1(k)
  {
    var t := StepClaim(After(k), 1, [0]);
    assert t.messages == [Message(true, 2 + k, 1, k, 0)];
    assert Claims(t.messages, [0]) == [Claimed(0, 2 + k)];
    assert t.workers == [Running(0), Checking([Claimed(0, 2 + k)])];
  }

  lemma CycleRun(max: nat, k: nat)
    requires 2 + k < max
    ensures Run(max, After(k), CYCLE) == After(k + 1)
  {
    var s := After(k);
    Then(max, s, [], Claim(1, [0]));
    Then(max, s, [Claim(1, [0])], Check(1, true));
    Then(max, s, [Claim(1, [0]), Check(1, true)], Crash(1));
    assert [] + [Claim(1, [0])] == [Claim(1, [0])];
    assert [Claim(1, [0])] + [Check(1, true)] == [Claim(1, [0]), Check(1, true)];
    assert [Claim(1, [0]), Check(1, true)] + [Crash(1)] == CYCLE;
    ClaimOne(k);
    var t := StepCheck(max, Claimed1(k), 1, true);
    assert t.messages == [Message(true, 2 + k, 1, k + 1, 0)];
    assert t.workers == [Running(0), Running(0)];
    assert t.workers[1 := Idle] == [Running(0), Idle];
  }

  lemma {:induction false} CyclesRun(max: nat, k: nat)
    requires k == 0 || 1 + k < max
    ensures Run(max, INIT, Cycles(k)) == After(k)
  {
    if k == 0 {
      LeadRun(max);
    } else {
      CyclesRun(max, k - 1);
      IterateConcat(Stepper(max), INIT, Cycles(k - 1), CYCLE);
      CycleRun(max, k - 1);
    }
  }

  /** The bound is reached: max(1, maxDeliveries - 1) hand-offs do happen with every query answered. */
  lemma LimitIsReached(max: nat) returns (actions: seq<Action>)
    requires max > 0
    ensures var s := Run(max, INIT, actions);
            |s.messages| == 1 && s.messages[0].blind == 0 && HandedOver(s.messages[0]) == Limit(max)
  {
    var k := if max > 2 then max - 2 else 0;
    CyclesRun(max, k);
    actions := Cycles(k);
  }

  // Worker 0 finishes and acknowledges between worker 1's claim and its count query, which finds nothing.
  const OVERTAKEN := [Claim(1, [0]), Finish(0, Executed), Ack(0, true), Check(1, true)]

  function Finished(k: nat): State {
    Claimed1(k).(workers := [AckDone(0), Checking([Claimed(0, 2 + k)])], executed := {0})
  }

  function Acked(k: nat): State {
    Finished(k).(workers := [Idle, Checking([Claimed(0, 2 + k)])], pending := {}, acked := {0})
  }

  lemma FinishAndAck(k: nat)
    ensures StepFinish(Claimed1(k), 0, Executed) == Finished(k)
    ensures StepAck(Finished(k), 0, true) == Acked(k)
  {
    var checking := Checking([Claimed(0, 2 + k)]);
    assert [Running(0), checking][0 := AckDone(0)] == [AckDone(0), checking];
    assert [AckDone(0), checking][0 := Idle] == [Idle, checking];
  }

  lemma BlindCheck(max: nat, k: nat)
    requires max > 0
    ensures StepCheck(max, Acked(k), 1, true).messages == [Message(true, 2 + k, 1, k, 1)]
  {
  }

  lemma FinishedRun(max: nat, k: nat)
    ensures Run(max, After(k), [Claim(1, [0]), Finish(0, Executed)]) == Finished(k)
  {
    var s := After(k);
    Then(max, s, [], Claim(1, [0]));
    Then(max, s, [Claim(1, [0])], Finish(0, Executed));
    assert [] + [Claim(1, [0])] == [Claim(1, [0])];
    assert [Claim(1, [0])] + [Finish(0, Executed)] == [Claim(1, [0]), Finish(0, Executed)];
    ClaimOne(k);
    FinishAndAck(k);
  }

  lemma AckedRun(max: nat, k: nat)
    ensures Run(max, After(k), [Claim(1, [0]), Finish(0, Executed), Ack(0, true)]) == Acked(k)
  {
    Then(max, After(k), [Claim(1, [0]), Finish(0, Executed)], Ack(0, true));
    assert [Claim(1, [0]), Finish(0, Executed)] + [Ack(0, true)] == [Claim(1, [0]), Finish(0, Executed), Ack(0, true)];
    FinishedRun(max, k);
    FinishAndAck(k);
  }

  lemma OvertakenRun(max: nat, k: nat)
    requires max > 0
    ensures Run(max, After(k), OVERTAKEN).messages == [Message(true, 2 + k, 1, k, 1)]
  {
    Then(max, After(k), [Claim(1, [0]), Finish(0, Executed), Ack(0, true)], Check(1, true));
    assert [Claim(1, [0]), Finish(0, Executed), Ack(0, true)] + [Check(1, true)] == OVERTAKEN;
    AckedRun(max, k);
    BlindCheck(max, k);
  }

  predicate QueriesSucceed(actions: seq<Action>) {
    forall i :: 0 <= i < |actions| && actions[i].Check? ==> actions[i].ok
  }

  lemma {:induction false} CyclesQuery(k: nat)
    ensures QueriesSucceed(Cycles(k))
  {
    if k > 0 {
      CyclesQuery(k - 1);
    }
  }

  /** Successful count queries are not enough: one that finds the entry gone reads as 0 deliveries, so
      an executed and acknowledged message is executed once more, past the bound. */
  lemma SuccessfulQueriesExceedTheLimit(max: nat) returns (actions: seq<Action>)
    requires max > 0
    ensures QueriesSucceed(actions)
    ensures var s := Run(max, INIT, actions);
            |s.messages| == 1 && s.messages[0].blind == 1 && HandedOver(s.messages[0]) == Limit(max) + 1
  {
    var k := if max > 2 then max - 2 else 0;
    CyclesRun(max, k);
    CyclesQuery(k);
    actions := Cycles(k) + OVERTAKEN;
    IterateConcat(Stepper(max), INIT, Cycles(k), OVERTAKEN);
    OvertakenRun(max, k);
  }

  ghost predicate BoundHolds(max: nat, blind: nat) {
    forall actions, id :: 0 <= id < |Run(max, INIT, actions).messages|
                          && Run(max, INIT, actions).messages[id].blind <= blind
                          ==> HandedOver(Run(max, INIT, actions).messages[id]) <= Limit(max)
  }

  /** The documented bound holds of exactly the messages that no claim hands over without having read
      their count: allowing one such hand-off already breaks it. */
  lemma BoundHoldsIff(max: nat, blind: nat)
    requires max > 0
    ensures BoundHolds(max, blind) <==> blind == 0
  {
    if blind == 0 {
      forall actions, id | 0 <= id < |Run(max, INIT, actions).messages|
        && Run(max, INIT, actions).messages[id].blind <= blind
        ensures HandedOver(Run(max, INIT, actions).messages[id]) <= Limit(max)
      {
        BoundedRedelivery(max, actions, id);
      }
    } else {
      var actions := SuccessfulQueriesExceedTheLimit(max);
      assert 0 < |Run(max, INIT, actions).messages|;
    }
  }
}
