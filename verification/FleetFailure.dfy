/** How a run fails: every failure leads through the catch block to one reported error, with the
    handlers of the run taken back. */
module FleetFailure {
  import opened MqttService
  import opened FleetProvisioning
  import opened FleetProgress

  // ---- The catch block ----

  /** The topics that the catch block unsubscribes from its step `k` on. */
  function TopicsToCancel(topics: Topics, reached: nat, k: nat): set<string>
    decreases if k < 4 then 4 - k else 0
  {
    if k >= 4 then {} else {CancelTopic(topics, reached, CancelSlot(k))} + TopicsToCancel(topics, reached, k + 1)
  }

  lemma OneCancelled(s: State, reached: nat, k: nat, ok: bool)
    requires !s.crashed && s.worker.place == Cancelling(reached, k) && k < 4
    ensures Step(s, Work(Accepted(0), ok)) ==
            s.(worker := s.worker.(place := Cancelling(reached, k + 1)),
               mqtt := s.mqtt.(handlers := s.mqtt.handlers - {CancelTopic(s.topics, reached, CancelSlot(k))}))
  {
  }

  lemma CatchBlockReports(s: State, submitted: Submitted, ok: bool)
    requires !s.crashed && s.worker.place.Cancelling? && s.worker.place.k >= 4
    ensures Step(s, Work(submitted, ok)) ==
            s.(worker := s.worker.(place := Finished, outcomes := s.worker.outcomes + [Error]),
               trace := s.trace + [Reported(Error)])
  {
  }

  function Works(n: nat): seq<Action> {
    if n == 0 then [] else Works(n - 1) + [Work(Accepted(0), true)]
  }

  /** The worker takes the next step first. */
  lemma {:induction false} WorksFirst(s: State, n: nat)
    ensures Run(s, Works(n + 1)) == Run(Step(s, Work(Accepted(0), true)), Works(n))
  {
    var work := Work(Accepted(0), true);
    RunNext(s, Works(n), work);
    if n > 0 {
      WorksFirst(s, n - 1);
      RunNext(Step(s, work), Works(n - 1), work);
    }
  }

  /** The state in which the catch block, at its step `k`, leaves the run in the end. */
  function Caught(s: State, reached: nat, k: nat): State {
    s.(worker := s.worker.(place := Finished, outcomes := s.worker.outcomes + [Error]),
       mqtt := s.mqtt.(handlers := s.mqtt.handlers - TopicsToCancel(s.topics, reached, k)),
       trace := s.trace + [Reported(Error)])
  }

  lemma CaughtAlike(s: State, s': State, reached: nat, k: nat)
    requires k < 4
    requires s' == s.(worker := s.worker.(place := Cancelling(reached, k + 1)),
                      mqtt := s.mqtt.(handlers := s.mqtt.handlers - {CancelTopic(s.topics, reached, CancelSlot(k))}))
    ensures Caught(s', reached, k + 1) == Caught(s, reached, k)
  {
    assert s'.mqtt.handlers - TopicsToCancel(s.topics, reached, k + 1)
        == s.mqtt.handlers - TopicsToCancel(s.topics, reached, k);
  }

  lemma CaughtAtOnce(s: State, reached: nat)
    requires !s.crashed && s.worker.place == Cancelling(reached, 4)
    ensures Run(s, Works(1)) == Caught(s, reached, 4)
  {
    CatchBlockReports(s, Accepted(0), true);
    assert s.mqtt.handlers - {} == s.mqtt.handlers;
    WorksFirst(s, 0);
  }

  lemma CancelledFirst(s: State, s': State, reached: nat, k: nat, n: nat)
    requires !s.crashed && s.worker.place == Cancelling(reached, k) && k < 4
    requires s' == s.(worker := s.worker.(place := Cancelling(reached, k + 1)),
                      mqtt := s.mqtt.(handlers := s.mqtt.handlers - {CancelTopic(s.topics, reached, CancelSlot(k))}))
    ensures Run(s, Works(n + 1)) == Run(s', Works(n))
  {
    OneCancelled(s, reached, k, true);
    WorksFirst(s, n);
  }

  /** With a library that unsubscribes, the catch block takes back the handlers of the topics that
      were subscribed and ends the run with one error, in one step more than it has topics. */
  lemma {:induction false} CatchBlockEnds(s: State, reached: nat, k: nat)
    requires !s.crashed && s.worker.place == Cancelling(reached, k) && k <= 4
    ensures Run(s, Works(5 - k)) == Caught(s, reached, k)
    decreases 4 - k
  {
    if k == 4 {
      CaughtAtOnce(s, reached);
    } else {
      var handlers := s.mqtt.handlers - {CancelTopic(s.topics, reached, CancelSlot(k))};
      var s' := s.(worker := s.worker.(place := Cancelling(reached, k + 1)),
                   mqtt := s.mqtt.(handlers := handlers));
      CancelledFirst(s, s', reached, k, 4 - k);
      CatchBlockEnds(s', reached, k + 1);
      CaughtAlike(s, s', reached, k);
    }
  }

  /** The topics of a run that failed at `reached`: those subscribed by then. */
  lemma CancelsItsTopics(topics: Topics, reached: nat, slot: Slot)
    requires SubscribeAt(slot) <= reached
    ensures Topic(slot, topics) in TopicsToCancel(topics, reached, 0)
  {
    assert TopicsToCancel(topics, reached, 4) == {};
    assert TopicsToCancel(topics, reached, 3) == {CancelTopic(topics, reached, CancelSlot(3))};
    assert CancelTopic(topics, reached, CancelSlot(2)) in TopicsToCancel(topics, reached, 2);
    assert CancelTopic(topics, reached, CancelSlot(1)) in TopicsToCancel(topics, reached, 1);
    assert CancelTopic(topics, reached, CancelSlot(0)) in TopicsToCancel(topics, reached, 0);
    assert CancelSlot(0) == slot || CancelSlot(1) == slot || CancelSlot(2) == slot || CancelSlot(3) == slot;
  }

  // ---- What leads into it ----

  /** A promise that was not kept ends the run: six steps from its check there is one error, the
      data are not marked, and no handler is left on a topic the run had subscribed. */
  lemma BrokenPromiseEndsRun(s: State, pc: nat, p: Promise)
    requires !s.crashed && s.worker.place == Running(pc) && InstructionAt(pc) == Check(p)
    requires p in s.promises.values && !s.promises.values[p]
    ensures var t := Run(s, Works(6));
            && t.worker == s.worker.(place := Finished, outcomes := s.worker.outcomes + [Error])
            && t.trace == s.trace + [Reported(Error)] && t.promises == s.promises
            && forall slot :: SubscribeAt(slot) <= pc ==> Topic(slot, s.topics) !in t.mqtt.handlers
  {
    var s' := Step(s, Work(Accepted(0), true));
    assert s' == s.(worker := s.worker.(place := Cancelling(pc, 0)));
    WorksFirst(s, 5);
    CatchBlockEnds(s', pc, 0);
    forall slot | SubscribeAt(slot) <= pc ensures Topic(slot, s.topics) !in Run(s, Works(6)).mqtt.handlers {
      CancelsItsTopics(s.topics, pc, slot);
    }
  }

  lemma AfterAwaitComesCheck(request: Request)
    ensures InstructionAt(SendAt(request) + 3) == Await(Responded(request))
    ensures InstructionAt(SendAt(request) + 4) == Check(Responded(request))
  {
  }

  /** A false response that is awaited: one step to its check, six from there. */
  lemma FalseResponseEndsRun(s: State, request: Request)
    requires !s.crashed && s.worker.place == Running(SendAt(request) + 3)
    requires Responded(request) in s.promises.values && !s.promises.values[Responded(request)]
    ensures Run(s, Works(7)).worker == s.worker.(place := Finished, outcomes := s.worker.outcomes + [Error])
  {
    AfterAwaitComesCheck(request);
    var s' := Step(s, Work(Accepted(0), true));
    assert s' == s.(worker := s.worker.(place := Running(SendAt(request) + 4)));
    WorksFirst(s, 6);
    BrokenPromiseEndsRun(s', SendAt(request) + 4, Responded(request));
  }

  lemma RejectionIsNoted(s: State, request: Request, topic: string, m: Message)
    requires !s.crashed && Responded(request) !in s.promises.values && Delivered(s, RejectedSlot(request), topic)
    requires m.rejection.Some? && m.rejection.value.statusCode.Some? && m.rejection.value.errorCode.Some?
    requires m.rejection.value.errorMessage.Some?
    ensures var s' := Step(s, Arrive(RejectedSlot(request), topic, m));
            !s'.crashed && s'.worker == s.worker && s'.promises.values == s.promises.values[Responded(request) := false]
  {
    TwoSlots(request, RejectedSlot(request));
  }

  /** A rejection that comes first ends the run with an error. */
  lemma RejectionEndsRun(s: State, request: Request, topic: string, m: Message)
    requires !s.crashed && s.worker.place == Running(SendAt(request) + 3)
    requires Responded(request) !in s.promises.values && Delivered(s, RejectedSlot(request), topic)
    requires m.rejection.Some? && m.rejection.value.statusCode.Some? && m.rejection.value.errorCode.Some?
    requires m.rejection.value.errorMessage.Some?
    ensures Run(Step(s, Arrive(RejectedSlot(request), topic, m)), Works(7)).worker ==
            s.worker.(place := Finished, outcomes := s.worker.outcomes + [Error])
  {
    RejectionIsNoted(s, request, topic, m);
    FalseResponseEndsRun(Step(s, Arrive(RejectedSlot(request), topic, m)), request);
  }

  /** The first check that can fail comes after a call was refused: a subscribe, an unsubscribe or
      a publish without a client falls into the catch block at once. */
  lemma RefusedCallFallsIntoCatchBlock(s: State, pc: nat, code: int, ok: bool)
    requires !s.crashed && s.worker.place == Running(pc)
    requires InstructionAt(pc).SubscribeTo? || InstructionAt(pc).UnsubscribeFrom? || (InstructionAt(pc).Send? && !ok)
    ensures Step(s, Work(Rejected(code), ok)) == s.(worker := s.worker.(place := Cancelling(pc, 0)))
  {
  }

  /** Without certificate files there is an error and nothing else; without a connection there is
      one before the teardown. */
  lemma NoConnectionIsReported(s: State, submitted: Submitted)
    requires !s.crashed
    ensures s.worker.place.Setup? ==>
              Step(s, Work(submitted, false)).worker ==
              s.worker.(place := Finished, outcomes := s.worker.outcomes + [Error])
    ensures s.worker.place.Connecting? ==>
              var t := Step(Step(s, Work(submitted, false)), Work(submitted, true));
              t.worker == s.worker.(place := Finished, isProvisioned := false, outcomes := s.worker.outcomes + [Error])
  {
  }
}
