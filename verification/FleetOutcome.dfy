/** How a provisioning run ends: the first response decides, one outcome is reported, and a
    provisioned run leaves nothing of its own in the MQTT service. */
module FleetOutcome {
  import opened MqttService
  import opened FleetProvisioning
  import opened FleetProtocol

  // ---- Repeated and contrary responses ----

  /** The same promises, worker, outcomes and contexts; the notes and the history may differ. */
  predicate SameCourse(s: State, t: State) {
    && s.topics == t.topics && s.limit == t.limit && s.mqtt == t.mqtt && s.worker == t.worker
    && s.promises.values == t.promises.values && s.promises.error == t.promises.error
    && s.owed == t.owed && s.crashed == t.crashed
  }

  /** The message answers a request that has its response already. */
  predicate Repeats(s: State, slot: Slot, m: Message) {
    var answer := Answer(slot, Read(slot, m));
    answer.Some? && Responded(answer.value.0) in s.promises.values
  }

  /** A message leaves the course of the run as it is exactly when it is not delivered or only
      repeats or contradicts a response: the first answer counts, and so does a message whose
      handler throws. */
  lemma OnlyTheFirstAnswerCounts(s: State, slot: Slot, topic: string, m: Message)
    ensures SameCourse(Step(s, Arrive(slot, topic, m)), s) <==>
            s.crashed || !Delivered(s, slot, topic) || Repeats(s, slot, m)
  {
    var answer := Answer(slot, Read(slot, m));
    if !s.crashed && Delivered(s, slot, topic) && answer.Some? && !Repeats(s, slot, m) {
      assert Responded(answer.value.0) in Step(s, Arrive(slot, topic, m)).promises.values;
    }
  }

  lemma SameSet(s: State, t: State, p: Promise, value: bool)
    requires SameCourse(s, t)
    ensures SameCourse(SetPromise(s, p, value), SetPromise(t, p, value))
  {
  }

  lemma SameCallBack(s: State, t: State, handler: Handler, value: bool)
    requires SameCourse(s, t)
    ensures SameCourse(CallBack(s, handler, value), CallBack(t, handler, value))
  {
    if handler.Notify? {
      SameSet(s, t, handler.promise, value);
    }
  }

  lemma SameSubscribeCompletion(s: State, t: State, token: int, granted: Granted)
    requires SameCourse(s, t)
    ensures SameCourse(CompleteSubscribe(s, token, granted), CompleteSubscribe(t, token, granted))
  {
    var table := s.mqtt.subscribes;
    var after := ContextTable.Step(ContextTable.Unlimited, table, ContextTable.Complete(token, granted));
    if token in table.entries {
      SameCallBack(s.(mqtt := s.mqtt.(subscribes := after)), t.(mqtt := t.mqtt.(subscribes := after)),
                   table.entries[token].ctx, granted.result);
    }
  }

  lemma SameSendCompletion(s: State, t: State, token: int, result: bool)
    requires SameCourse(s, t)
    ensures SameCourse(CompleteSend(s, token, result), CompleteSend(t, token, result))
  {
    var table := s.mqtt.publishes;
    var after := ContextTable.Step(s.limit, table, ContextTable.Complete(token, result));
    if token in table.entries {
      SameCallBack(s.(mqtt := s.mqtt.(publishes := after)), t.(mqtt := t.mqtt.(publishes := after)),
                   table.entries[token].ctx, result);
    }
  }

  lemma SameAnswer(s: State, t: State, p: Promise, granted: Granted)
    requires SameCourse(s, t)
    ensures SameCourse(Act(s, Answered(p, granted)), Act(t, Answered(p, granted)))
  {
    if p in s.owed {
      var s', t' := s.(owed := s.owed - {p}), t.(owed := t.owed - {p});
      if p.SubscribedTo? {
        SameSubscribeCompletion(s', t', s.owed[p], granted);
      } else {
        SameSendCompletion(s', t', s.owed[p], granted.result);
      }
    }
  }

  lemma SameOffer(s: State, t: State, p: Promise, value: bool)
    requires SameCourse(s, t)
    ensures SameCourse(OfferPromise(s, p, value), OfferPromise(t, p, value))
  {
  }

  lemma SameHandling(s: State, t: State, slot: Slot, m: Message)
    requires SameCourse(s, t)
    ensures SameCourse(Handle(s, slot, m), Handle(t, slot, m))
  {
    assert SameCourse(Noted(s, slot, m), Noted(t, slot, m));
    var answer := Answer(slot, Read(slot, m));
    if answer.Some? {
      SameOffer(Noted(s, slot, m), Noted(t, slot, m), Responded(answer.value.0), answer.value.1);
    }
  }

  lemma SameWork(s: State, t: State, submitted: Submitted, ok: bool)
    requires SameCourse(s, t)
    ensures SameCourse(WorkerStep(s, submitted, ok), WorkerStep(t, submitted, ok))
  {
    if s.worker.place.Running? {
      SameFollow(s, t, s.worker.place.pc, InstructionAt(s.worker.place.pc), submitted, ok);
    } else if s.worker.place.Storing? {
      SameStore(s, t, s.worker.place.promise, s.worker.place.token);
    } else {
      SameAround(s, t, submitted, ok);
    }
  }

  lemma SameAround(s: State, t: State, submitted: Submitted, ok: bool)
    requires SameCourse(s, t)
    ensures SameCourse(Around(s, submitted, ok), Around(t, submitted, ok))
  {
  }

  lemma SameStore(s: State, t: State, p: Promise, token: int)
    requires SameCourse(s, t)
    ensures SameCourse(StoreContext(s, p, token), StoreContext(t, p, token))
  {
  }

  lemma SameFollow(s: State, t: State, pc: nat, instruction: Instruction, submitted: Submitted, ok: bool)
    requires SameCourse(s, t)
    ensures SameCourse(Follow(s, pc, instruction, submitted, ok), Follow(t, pc, instruction, submitted, ok))
  {
    match instruction
    case SubscribeTo(slot) =>
    case Send(request) =>
    case UnsubscribeFrom(slot) =>
    case Check(p) => SameCheck(s, t, pc, p, submitted, ok);
    case Await(p) => SameAwait(s, t, pc, p, submitted, ok);
    case Succeed => SameSuccess(s, t, pc, submitted, ok);
  }

  lemma SameGoto(s: State, t: State, place: Place)
    requires SameCourse(s, t)
    ensures SameCourse(Goto(s, place), Goto(t, place))
  {
  }

  lemma CheckIsGoto(s: State, pc: nat, p: Promise, submitted: Submitted, ok: bool)
    ensures Follow(s, pc, Check(p), submitted, ok) ==
            Goto(s, if p in s.promises.values && s.promises.values[p] then Running(pc + 1) else Cancelling(pc, 0))
  {
  }

  lemma SameCheck(s: State, t: State, pc: nat, p: Promise, submitted: Submitted, ok: bool)
    requires SameCourse(s, t)
    ensures SameCourse(Follow(s, pc, Check(p), submitted, ok), Follow(t, pc, Check(p), submitted, ok))
  {
    CheckIsGoto(s, pc, p, submitted, ok);
    CheckIsGoto(t, pc, p, submitted, ok);
    SameGoto(s, t, if p in s.promises.values && s.promises.values[p] then Running(pc + 1) else Cancelling(pc, 0));
  }

  lemma SameAwait(s: State, t: State, pc: nat, p: Promise, submitted: Submitted, ok: bool)
    requires SameCourse(s, t)
    ensures SameCourse(Follow(s, pc, Await(p), submitted, ok), Follow(t, pc, Await(p), submitted, ok))
  {
    SameGoto(s, t, Running(pc + 1));
  }

  lemma SameSuccess(s: State, t: State, pc: nat, submitted: Submitted, ok: bool)
    requires SameCourse(s, t)
    ensures SameCourse(Follow(s, pc, Succeed, submitted, ok), Follow(t, pc, Succeed, submitted, ok))
  {
  }

  lemma SameStep(s: State, t: State, a: Action)
    requires SameCourse(s, t)
    ensures SameCourse(Step(s, a), Step(t, a))
  {
    match a
    case Work(submitted, ok) => SameWork(s, t, submitted, ok);
    case Arrive(slot, topic, message) => SameHandling(s, t, slot, message);
    case Answered(p, granted) => SameAnswer(s, t, p, granted);
    case SubscribeCompleted(token, granted) => SameSubscribeCompletion(s, t, token, granted);
    case SendCompleted(token, result) => SameSendCompletion(s, t, token, result);
    case _ =>
  }

  lemma {:induction false} SameRun(s: State, t: State, actions: seq<Action>)
    requires SameCourse(s, t)
    ensures SameCourse(Run(s, actions), Run(t, actions))
  {
    if actions != [] {
      SameRun(s, t, actions[..|actions| - 1]);
      SameStep(Run(s, actions[..|actions| - 1]), Run(t, actions[..|actions| - 1]), actions[|actions| - 1]);
    }
  }

  ghost predicate SameCourseAfter(s: State, t: State, rest: seq<Action>) {
    SameCourse(Run(s, rest), Run(t, rest))
  }

  /** Main: a message inserted at any point changes nothing in all that follows, neither
      promises nor steps nor outcomes, if and only if it is not delivered or its request has its
      first response. */
  lemma LaterResponsesChangeNothing(s: State, slot: Slot, topic: string, m: Message)
    ensures (forall rest :: SameCourseAfter(Step(s, Arrive(slot, topic, m)), s, rest)) <==>
            s.crashed || !Delivered(s, slot, topic) || Repeats(s, slot, m)
  {
    var s' := Step(s, Arrive(slot, topic, m));
    OnlyTheFirstAnswerCounts(s, slot, topic, m);
    if SameCourse(s', s) {
      forall rest ensures SameCourseAfter(s', s, rest) {
        SameRun(s', s, rest);
      }
    } else {
      assert Run(s', []) == s' && Run(s, []) == s;
      assert !SameCourseAfter(s', s, []);
    }
  }

  // ---- One outcome ----

  ghost predicate OutcomeOk(w: Worker, promises: Promises) {
    && (w.place.Teardown? || w.place.Finished? || (w.outcomes == [] && !w.isProvisioned))
    && (w.place.Teardown? || w.place.Finished? ==>
          |w.outcomes| > 0 && (w.isProvisioned <==> w.outcomes[0] == Provisioned))
    && w.outcomes[(if |w.outcomes| > 0 then 1 else 0)..] == (if w.teardownFailed then [Error] else [])
    && (w.teardownFailed ==> w.place.Finished?)
    && (w.refused.Some? ==> w.place.Finished? && !w.isProvisioned)
    && (w.isProvisioned ==> forall p :: IsTrue(promises, p))
  }

  /** A handler of the run that may still be called. */
  predicate MayListen(w: Worker, slot: Slot) {
    match w.place
    case Running(pc) => SubscribeAt(slot) < pc <= UnsubscribeAt(slot)
    case Storing(p, _) => SubscribeAt(slot) < StoreAt(p) <= UnsubscribeAt(slot)
    case Cancelling(reached, k) => NotYetCancelled(reached, k, slot)
    case Finished => w.refused.Some? && NotYetCancelled(w.refused.value.0, w.refused.value.1, slot)
    case _ => false
  }

  /** Subscribed before the run failed at `reached`, and not among the first `k` unsubscribes. */
  predicate NotYetCancelled(reached: nat, k: nat, slot: Slot) {
    SubscribeAt(slot) < reached && forall i :: 0 <= i < k && i < 4 ==> CancelSlot(i) != slot
  }

  ghost predicate HandlersOk(topics: Topics, handlers: map<string, Handler>, w: Worker) {
    forall t :: t in handlers && handlers[t].OnMessage? ==>
           t == Topic(handlers[t].slot, topics) && MayListen(w, handlers[t].slot)
  }

  ghost predicate EndOk(s: State) {
    OutcomeOk(s.worker, s.promises) && HandlersOk(s.topics, s.mqtt.handlers, s.worker)
  }

  lemma FollowKeepsOutcome(s: State, pc: nat, instruction: Instruction, submitted: Submitted, ok: bool)
    requires OutcomeOk(s.worker, s.promises) && CheckedOk(s.worker.place, s.promises)
    requires s.worker.place == Running(pc) && instruction == InstructionAt(pc)
    ensures var s' := Follow(s, pc, instruction, submitted, ok); OutcomeOk(s'.worker, s'.promises)
  {
    WhichInstruction(pc);
  }

  lemma UnsubscribeKeepsHandlers(s: State, slot: Slot, submitted: Submitted, ok: bool)
    requires HandlersOk(s.topics, s.mqtt.handlers, s.worker) && s.worker.place == Running(UnsubscribeAt(slot))
    ensures var s' := Follow(s, UnsubscribeAt(slot), UnsubscribeFrom(slot), submitted, ok);
            HandlersOk(s'.topics, s'.mqtt.handlers, s'.worker)
  {
    forall q | MayListen(s.worker, q) && q != slot ensures UnsubscribeAt(q) > UnsubscribeAt(slot) {
    }
  }

  /** Where the worker goes from any other instruction the same handlers may listen. */
  lemma OtherFollowListens(s: State, pc: nat, instruction: Instruction, submitted: Submitted, ok: bool, slot: Slot)
    requires s.worker.place == Running(pc) && instruction == InstructionAt(pc) && !instruction.UnsubscribeFrom?
    requires MayListen(s.worker, slot)
    ensures MayListen(Follow(s, pc, instruction, submitted, ok).worker, slot)
  {
    WhichInstruction(pc);
  }

  lemma FollowKeepsHandlers(s: State, pc: nat, instruction: Instruction, submitted: Submitted, ok: bool)
    requires HandlersOk(s.topics, s.mqtt.handlers, s.worker)
    requires s.worker.place == Running(pc) && instruction == InstructionAt(pc)
    ensures var s' := Follow(s, pc, instruction, submitted, ok); HandlersOk(s'.topics, s'.mqtt.handlers, s'.worker)
  {
    if instruction.UnsubscribeFrom? {
      WhichInstruction(pc);
      UnsubscribeKeepsHandlers(s, instruction.slot, submitted, ok);
    } else {
      var s' := Follow(s, pc, instruction, submitted, ok);
      assert s'.mqtt.handlers == s.mqtt.handlers && s'.topics == s.topics;
      forall t | t in s.mqtt.handlers && s.mqtt.handlers[t].OnMessage?
        ensures MayListen(s'.worker, s.mqtt.handlers[t].slot)
      {
        OtherFollowListens(s, pc, instruction, submitted, ok, s.mqtt.handlers[t].slot);
      }
    }
  }

  lemma FollowKeepsEnd(s: State, pc: nat, instruction: Instruction, submitted: Submitted, ok: bool)
    requires EndOk(s) && CheckedOk(s.worker.place, s.promises)
    requires s.worker.place == Running(pc) && instruction == InstructionAt(pc)
    ensures EndOk(Follow(s, pc, instruction, submitted, ok))
  {
    FollowKeepsOutcome(s, pc, instruction, submitted, ok);
    FollowKeepsHandlers(s, pc, instruction, submitted, ok);
  }

  /** The catch block, one unsubscribe at a time. */
  lemma CancelKeepsEnd(s: State, submitted: Submitted, ok: bool)
    requires EndOk(s) && s.worker.place.Cancelling?
    ensures EndOk(Around(s, submitted, ok))
  {
    var place, w' := s.worker.place, Around(s, submitted, ok).worker;
    forall slot | MayListen(s.worker, slot) && !MayListen(w', slot)
      ensures w'.place == Cancelling(place.reached, place.k + 1) && slot == CancelSlot(place.k)
    {
      AllCancelled(place.reached, place.k, slot);
    }
  }

  lemma AllCancelled(reached: nat, k: nat, slot: Slot)
    ensures k >= 4 ==> !NotYetCancelled(reached, k, slot)
  {
    assert CancelSlot(0) == slot || CancelSlot(1) == slot || CancelSlot(2) == slot || CancelSlot(3) == slot;
  }

  lemma NextWorkerOk(w: Worker, promises: Promises, submitted: Submitted, ok: bool)
    requires OutcomeOk(w, promises) && !w.place.Running? && !w.place.Storing?
    ensures OutcomeOk(NextWorker(w, submitted, ok), promises)
  {
  }

  lemma AroundKeepsEnd(s: State, submitted: Submitted, ok: bool)
    requires EndOk(s) && !s.worker.place.Running? && !s.worker.place.Storing? && !s.worker.place.Cancelling?
    ensures EndOk(Around(s, submitted, ok))
  {
    NextWorkerOk(s.worker, s.promises, submitted, ok);
    forall slot ensures MayListen(s.worker, slot) ==> MayListen(NextWorker(s.worker, submitted, ok), slot) {
    }
  }

  /** The context of an accepted request is stored, and with a subscribe its handler. */
  lemma StoreKeepsEnd(s: State, p: Promise, token: int)
    requires EndOk(s) && s.worker.place == Storing(p, token)
    ensures EndOk(StoreContext(s, p, token))
  {
  }

  /** A promise gets its value. */
  lemma SettleKeepsEnd(s: State, p: Promise, value: bool)
    requires EndOk(s) && p !in s.promises.values
    ensures EndOk(Settle(s, p, value))
  {
    assert s.worker.isProvisioned ==> IsTrue(s.promises, p);
  }

  /** Others touch the tables, and handlers of their own. */
  lemma OthersKeepEnd(s: State, m: Mqtt)
    requires EndOk(s)
    requires forall t :: t in m.handlers && m.handlers[t].OnMessage? ==>
             t in s.mqtt.handlers && s.mqtt.handlers[t] == m.handlers[t]
    ensures EndOk(s.(mqtt := m))
  {
  }

  lemma CallBackKeepsEnd(s: State, m: Mqtt, handler: Handler, value: bool)
    requires EndOk(s) && m.handlers == s.mqtt.handlers
    ensures EndOk(CallBack(s.(mqtt := m), handler, value))
  {
    OthersKeepEnd(s, m);
    if handler.Notify? {
      if handler.promise in s.promises.values {
        assert forall p :: IsTrue(s.promises, p) ==> IsTrue(s.promises.(error := true), p);
      } else {
        SettleKeepsEnd(s.(mqtt := m), handler.promise, value);
      }
    }
  }

  lemma SubscribeCompletionKeepsEnd(s: State, token: int, granted: Granted)
    requires EndOk(s)
    ensures EndOk(CompleteSubscribe(s, token, granted))
  {
    var t := s.mqtt.subscribes;
    var m := s.mqtt.(subscribes := ContextTable.Step(ContextTable.Unlimited, t, ContextTable.Complete(token, granted)));
    CallBackKeepsEnd(s, m, if token in t.entries then t.entries[token].ctx else Other, granted.result);
  }

  lemma SendCompletionKeepsEnd(s: State, token: int, result: bool)
    requires EndOk(s)
    ensures EndOk(CompleteSend(s, token, result))
  {
    var t := s.mqtt.publishes;
    var m := s.mqtt.(publishes := ContextTable.Step(s.limit, t, ContextTable.Complete(token, result)));
    CallBackKeepsEnd(s, m, if token in t.entries then t.entries[token].ctx else Other, result);
  }

  lemma AnswerKeepsEnd(s: State, p: Promise, granted: Granted)
    requires EndOk(s)
    ensures EndOk(Act(s, Answered(p, granted)))
  {
    if p in s.owed {
      var rest := s.(owed := s.owed - {p});
      if p.SubscribedTo? {
        SubscribeCompletionKeepsEnd(rest, s.owed[p], granted);
      } else {
        SendCompletionKeepsEnd(rest, s.owed[p], granted.result);
      }
    }
  }

  lemma HandleKeepsEnd(s: State, slot: Slot, m: Message)
    requires EndOk(s)
    ensures EndOk(Handle(s, slot, m))
  {
    var answer := Answer(slot, Read(slot, m));
    assert EndOk(Noted(s, slot, m));
    if answer.Some? && Responded(answer.value.0) !in s.promises.values {
      SettleKeepsEnd(Noted(s, slot, m), Responded(answer.value.0), answer.value.1);
    }
  }

  lemma StepKeepsEnd(s: State, a: Action)
    requires EndOk(s) && CheckedOk(s.worker.place, s.promises)
    ensures EndOk(Step(s, a))
  {
    match a
    case Work(submitted, ok) =>
      if s.worker.place.Running? {
        FollowKeepsEnd(s, s.worker.place.pc, InstructionAt(s.worker.place.pc), submitted, ok);
      } else if s.worker.place.Storing? {
        StoreKeepsEnd(s, s.worker.place.promise, s.worker.place.token);
      } else if s.worker.place.Cancelling? {
        CancelKeepsEnd(s, submitted, ok);
      } else {
        AroundKeepsEnd(s, submitted, ok);
      }
    case Answered(p, granted) => AnswerKeepsEnd(s, p, granted);
    case AnsweredEmpty(_) =>
    case SubscribeCompleted(token, granted) => SubscribeCompletionKeepsEnd(s, token, granted);
    case SendCompleted(token, result) => SendCompletionKeepsEnd(s, token, result);
    case Arrive(slot, _, message) => HandleKeepsEnd(s, slot, message);
    case _ => OthersKeepEnd(s, Step(s, a).mqtt);
  }

  lemma {:induction false} EndReachable(topics: Topics, limit: ContextTable.Limit, actions: seq<Action>)
    ensures EndOk(Run(Initial(topics, limit), actions))
  {
    if actions != [] {
      EndReachable(topics, limit, actions[..|actions| - 1]);
      ProtocolReachable(topics, limit, actions[..|actions| - 1]);
      StepKeepsEnd(Run(Initial(topics, limit), actions[..|actions| - 1]), actions[|actions| - 1]);
    }
  }

  /** Main: a finished run has reported exactly one outcome, and a second one, an error, exactly
      when the teardown threw. The data are marked provisioned exactly when the first outcome is
      success, and then every promise was kept. */
  lemma OneOutcome(topics: Topics, limit: ContextTable.Limit, actions: seq<Action>)
    ensures var w := Run(Initial(topics, limit), actions).worker;
            && (w.place.Finished? ==> (|w.outcomes| == 1 <==> !w.teardownFailed))
            && (w.place.Finished? && w.teardownFailed ==> |w.outcomes| == 2 && w.outcomes[1] == Error)
            && (w.isProvisioned <==> |w.outcomes| > 0 && w.outcomes[0] == Provisioned)
            && (w.isProvisioned ==> forall p :: IsTrue(Run(Initial(topics, limit), actions).promises, p))
  {
    EndReachable(topics, limit, actions);
  }

  lemma AcceptedRegistration(trace: seq<Event>, n: nat)
    requires FirstAnswer(trace, RegisterThing, n, true)
    ensures trace[n - 1] == Handled(RegisterAccepted, Registered)
    ensures forall k :: 0 <= k < n - 1 ==> !Answers(trace[k], RegisterThing)
  {
  }

  /** Success rests on the first response to RegisterThing: an acceptance whose provision file
      was written and parsed, after RegisterThing itself was handed over and confirmed. */
  lemma ProvisionedByAcceptance(topics: Topics, limit: ContextTable.Limit, actions: seq<Action>) returns (n: nat)
    requires Run(Initial(topics, limit), actions).worker.isProvisioned
    ensures var s := Run(Initial(topics, limit), actions);
            && n < |s.trace| && s.trace[n] == Handled(RegisterAccepted, Registered)
            && (forall k :: 0 <= k < n ==> !Answers(s.trace[k], RegisterThing))
            && RegisterThing in s.sentAt && s.sentAt[RegisterThing] < |s.trace|
            && s.trace[s.sentAt[RegisterThing]].Sent? && s.trace[s.sentAt[RegisterThing]].request == RegisterThing
  {
    EndReachable(topics, limit, actions);
    ProtocolReachable(topics, limit, actions);
    var s := Run(Initial(topics, limit), actions);
    assert IsTrue(s.promises, Responded(RegisterThing)) && IsTrue(s.promises, SentOut(RegisterThing));
    n := AcceptanceOf(s.promises, s.trace);
  }

  lemma AcceptanceOf(promises: Promises, trace: seq<Event>) returns (n: nat)
    requires ResponsesOk(promises, trace) && IsTrue(promises, Responded(RegisterThing))
    ensures n < |trace| && trace[n] == Handled(RegisterAccepted, Registered)
    ensures forall k :: 0 <= k < n ==> !Answers(trace[k], RegisterThing)
  {
    n := promises.settledAt[Responded(RegisterThing)] - 1;
    AcceptedRegistration(trace, n + 1);
  }

  /** No context waits for a promise that is set, so none is left when all are. */
  lemma NothingWaits<R>(t: ContextTable.Table<Handler, R>)
    requires forall p :: !Waiting(t, p)
    ensures forall k :: k in t.entries ==> !t.entries[k].ctx.Notify?
  {
    forall k | k in t.entries ensures !t.entries[k].ctx.Notify? {
      assert t.entries[k].ctx.Notify? ==> Waiting(t, t.entries[k].ctx.promise);
    }
  }

  lemma AllSetNothingWaits(s: State)
    requires StateContextsOk(s) && forall p :: IsTrue(s.promises, p)
    ensures forall p :: !Waiting(s.mqtt.subscribes, p)
    ensures forall p :: !Waiting(s.mqtt.publishes, p)
  {
    forall p ensures !Waiting(s.mqtt.subscribes, p) && !Waiting(s.mqtt.publishes, p) {
      assert IsTrue(s.promises, p);
    }
  }

  /** A provisioned run leaves no context and no handler of its own behind, so nothing that
      arrives later reaches it. */
  lemma ProvisionedLeavesNothing(topics: Topics, limit: ContextTable.Limit, actions: seq<Action>)
    requires Run(Initial(topics, limit), actions).worker.isProvisioned
    ensures var m := Run(Initial(topics, limit), actions).mqtt;
            && (forall t :: t in m.handlers ==> !m.handlers[t].OnMessage?)
            && (forall k :: k in m.subscribes.entries ==> !m.subscribes.entries[k].ctx.Notify?)
            && (forall k :: k in m.publishes.entries ==> !m.publishes.entries[k].ctx.Notify?)
  {
    var s := Run(Initial(topics, limit), actions);
    ContextsReachable(topics, limit, actions);
    EndReachable(topics, limit, actions);
    AllSetNothingWaits(s);
    NothingWaits(s.mqtt.subscribes);
    NothingWaits(s.mqtt.publishes);
    NobodyListens(s);
  }

  lemma NobodyListens(s: State)
    requires EndOk(s) && s.worker.isProvisioned
    ensures forall t :: t in s.mqtt.handlers ==> !s.mqtt.handlers[t].OnMessage?
  {
    assert s.worker.outcomes != [];
    assert forall slot :: !MayListen(s.worker, slot);
  }

  /** After the four unsubscribes of the catch block, and once the run has ended, a handler of its
      own is left only if the library refused one of those unsubscribes, and then only one that
      was subscribed by that time and not unsubscribed before. */
  lemma CancelledStopsListening(topics: Topics, limit: ContextTable.Limit, actions: seq<Action>, topic: string)
    requires var s := Run(Initial(topics, limit), actions);
             && (s.worker.place.Finished? || (s.worker.place.Cancelling? && s.worker.place.k >= 4))
             && topic in s.mqtt.handlers && s.mqtt.handlers[topic].OnMessage?
    ensures var s := Run(Initial(topics, limit), actions);
            var slot := s.mqtt.handlers[topic].slot;
            && topic == Topic(slot, topics) && s.worker.place.Finished?
            && s.worker.refused.Some? && NotYetCancelled(s.worker.refused.value.0, s.worker.refused.value.1, slot)
  {
    EndReachable(topics, limit, actions);
    SameTopics(topics, limit, actions);
    var s := Run(Initial(topics, limit), actions);
    if s.worker.place.Cancelling? {
      AllCancelled(s.worker.place.reached, s.worker.place.k, s.mqtt.handlers[topic].slot);
    }
  }

  lemma {:induction false} SameTopics(topics: Topics, limit: ContextTable.Limit, actions: seq<Action>)
    ensures Run(Initial(topics, limit), actions).topics == topics
  {
    if actions != [] {
      SameTopics(topics, limit, actions[..|actions| - 1]);
      TopicsStay(Run(Initial(topics, limit), actions[..|actions| - 1]), actions[|actions| - 1]);
    }
  }

  lemma TopicsStay(s: State, a: Action)
    ensures Step(s, a).topics == s.topics
  {
  }
}
