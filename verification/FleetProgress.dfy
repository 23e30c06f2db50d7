/** When provisioning can go on: the waits of the worker are untimed, and each can end if and
    only if what would set its promise is still in place and still to come. */
module FleetProgress {
  import opened Options
  import opened MqttService
  import opened FleetProvisioning

  /** The run's handler for a slot is still the one that the service calls. */
  predicate Listening(s: State, slot: Slot) {
    var filter := Topic(slot, s.topics);
    filter != "" && filter in s.mqtt.handlers && s.mqtt.handlers[filter] == OnMessage(slot)
  }

  /** The table of publishes holds more contexts than the buffer size. */
  predicate TableFull(s: State) {
    s.limit.AtMost? && |s.mqtt.publishes.entries| > s.limit.size
  }

  /** The context that sets `p` is stored under `token`. */
  predicate HeldUnder(s: State, p: Promise, token: int) {
    match p
    case SubscribedTo(_) => token in s.mqtt.subscribes.entries && s.mqtt.subscribes.entries[token].ctx == Notify(p)
    case SentOut(_) => token in s.mqtt.publishes.entries && s.mqtt.publishes.entries[token].ctx == Notify(p)
    case Responded(_) => false
  }

  /** The promise is set, or what sets it is in place: the context of its call, whose answer the
      library still owes, or for a response one of the two handlers. */
  ghost predicate CanBeSet(s: State, p: Promise) {
    || p in s.promises.values
    || match p
       case Responded(r) => exists slot :: RequestOf(slot) == r && Listening(s, slot)
       case _ => p in s.owed && HeldUnder(s, p, s.owed[p])
  }

  /** The library does not answer somebody else's request under the token of the one for `p`. */
  predicate Spares(s: State, p: Promise, a: Action) {
    match a
    case SubscribeCompleted(token, _) => !(p.SubscribedTo? && HeldUnder(s, p, token))
    case SendCompleted(token, _) => !(p.SentOut? && HeldUnder(s, p, token))
    case Answered(q, _) => q == p || q !in s.owed || q.SubscribedTo? != p.SubscribedTo? || !HeldUnder(s, p, s.owed[q])
    case _ => true
  }

  ghost predicate AllSpare(s: State, p: Promise, actions: seq<Action>) {
    forall i :: 0 <= i < |actions| ==> Spares(s, p, actions[i])
  }

  /** The worker waits for `p` at `pc`. */
  ghost predicate Awaiting(s: State, pc: nat, p: Promise) {
    StateContextsOk(s) && s.worker.place == Running(pc) && InstructionAt(pc) == Await(p)
  }

  // ---- A promise that nothing sets any more ----

  /** The answer has been owed under that token since `start`. */
  predicate OwedSince(start: State, s: State, q: Promise)
    requires q in s.owed
  {
    q in start.owed && start.owed[q] == s.owed[q]
  }

  /** `p` cannot be set, and has been out of reach since `start`. */
  ghost predicate OutOfReach(start: State, s: State, p: Promise) {
    && !CanBeSet(s, p)
    && (forall token :: HeldUnder(s, p, token) ==> HeldUnder(start, p, token))
    && (forall q :: q in s.owed ==> OwedSince(start, s, q) || !HeldUnder(start, p, s.owed[q]))
  }

  ghost predicate Stuck(start: State, s: State, pc: nat, p: Promise) {
    Awaiting(s, pc, p) && OutOfReach(start, s, p)
  }

  /** Contexts and handlers only go, and other promises only come. */
  lemma FurtherOut(start: State, s: State, s': State, p: Promise)
    requires OutOfReach(start, s, p) && p !in s'.promises.values && s'.topics == s.topics
    requires forall token :: HeldUnder(s', p, token) ==> HeldUnder(s, p, token)
    requires forall q :: q in s'.owed ==>
               (q in s.owed && s'.owed[q] == s.owed[q]) || (q != p && !HeldUnder(start, p, s'.owed[q]))
    requires p.Responded? ==> forall slot :: Listening(s', slot) ==> Listening(s, slot)
    ensures OutOfReach(start, s', p)
  {
  }

  lemma OutAfterSubscription(start: State, s: State, p: Promise, token: int, granted: Granted)
    requires StateContextsOk(s) && OutOfReach(start, s, p) && !(p.SubscribedTo? && HeldUnder(s, p, token))
    ensures var s' := CompleteSubscribe(s, token, granted); OutOfReach(start, s', p) && s'.worker == s.worker
  {
    var t := s.mqtt.subscribes;
    assert token in t.entries ==> t.entries[token].ctx != Notify(p);
    FurtherOut(start, s, CompleteSubscribe(s, token, granted), p);
  }

  lemma OutAfterSend(start: State, s: State, p: Promise, token: int, result: bool)
    requires StateContextsOk(s) && OutOfReach(start, s, p) && !(p.SentOut? && HeldUnder(s, p, token))
    ensures var s' := CompleteSend(s, token, result); OutOfReach(start, s', p) && s'.worker == s.worker
  {
    var t := s.mqtt.publishes;
    assert token in t.entries ==> t.entries[token].ctx != Notify(p);
    FurtherOut(start, s, CompleteSend(s, token, result), p);
  }

  lemma OutAfterAnswer(start: State, s: State, p: Promise, q: Promise, granted: Granted)
    requires StateContextsOk(s) && OutOfReach(start, s, p) && Spares(start, p, Answered(q, granted))
    ensures var s' := Act(s, Answered(q, granted)); OutOfReach(start, s', p) && s'.worker == s.worker
  {
    if q in s.owed {
      var rest := s.(owed := s.owed - {q});
      FurtherOut(start, s, rest, p);
      if q.SubscribedTo? {
        OutAfterSubscription(start, rest, p, s.owed[q], granted);
      } else {
        OutAfterSend(start, rest, p, s.owed[q], granted.result);
      }
    }
  }

  lemma OfferFrame(s: State, q: Promise, value: bool)
    ensures var s' := OfferPromise(s, q, value);
            && s'.worker == s.worker && s'.mqtt == s.mqtt && s'.topics == s.topics && s'.owed == s.owed
            && forall p :: p in s'.promises.values ==> p in s.promises.values || p == q
  {
  }

  lemma HandleFrame(s: State, slot: Slot, m: Message)
    ensures var s' := Handle(s, slot, m);
            && s'.worker == s.worker && s'.mqtt == s.mqtt && s'.topics == s.topics && s'.owed == s.owed
            && forall p :: p in s'.promises.values ==> p in s.promises.values || p == Responded(RequestOf(slot))
  {
    var answer := Answer(slot, Read(slot, m));
    if answer.Some? {
      OfferFrame(Noted(s, slot, m), Responded(answer.value.0), answer.value.1);
    }
  }

  lemma OutAfterMessage(start: State, s: State, p: Promise, slot: Slot, topic: string, m: Message)
    requires StateContextsOk(s) && OutOfReach(start, s, p)
    ensures var s' := Act(s, Arrive(slot, topic, m)); OutOfReach(start, s', p) && s'.worker == s.worker
  {
    if Delivered(s, slot, topic) {
      assert Listening(s, slot);
      HandleFrame(s, slot, m);
      FurtherOut(start, s, Handle(s, slot, m), p);
    }
  }

  /** Everybody else's steps only take contexts and handlers away. */
  lemma OutAmongOthers(start: State, s: State, p: Promise, a: Action)
    requires StateContextsOk(s) && OutOfReach(start, s, p)
    requires a.SendConfirmed? || a.OtherPublish? || a.OtherSubscribe? || a.OtherUnsubscribe?
    ensures OutOfReach(start, Act(s, a), p) && Act(s, a).worker == s.worker
  {
    FurtherOut(start, s, Act(s, a), p);
  }

  /** Any step but one of the worker. */
  lemma OutAfterStep(start: State, s: State, p: Promise, a: Action)
    requires StateContextsOk(s) && OutOfReach(start, s, p) && Spares(start, p, a) && !a.Work?
    ensures OutOfReach(start, Act(s, a), p) && Act(s, a).worker == s.worker
  {
    match a
    case Answered(q, granted) => OutAfterAnswer(start, s, p, q, granted);
    case AnsweredEmpty(q) => FurtherOut(start, s, s.(owed := s.owed - {q}), p);
    case SendCompleted(token, result) => OutAfterSend(start, s, p, token, result);
    case SubscribeCompleted(token, granted) => OutAfterSubscription(start, s, p, token, granted);
    case Arrive(slot, topic, message) => OutAfterMessage(start, s, p, slot, topic, message);
    case _ => OutAmongOthers(start, s, p, a);
  }

  lemma StuckStep(start: State, s: State, pc: nat, p: Promise, a: Action)
    requires Stuck(start, s, pc, p) && Spares(start, p, a)
    ensures Stuck(start, Step(s, a), pc, p) && Step(s, a).worker == s.worker
  {
    StepKeepsContexts(s, a);
    if !a.Work? {
      OutAfterStep(start, s, p, a);
    }
  }

  lemma {:induction false} StuckFrom(start: State, pc: nat, p: Promise, actions: seq<Action>)
    requires Awaiting(start, pc, p) && !CanBeSet(start, p) && AllSpare(start, p, actions)
    ensures Stuck(start, Run(start, actions), pc, p) && Run(start, actions).worker == start.worker
  {
    if actions != [] {
      var before := actions[..|actions| - 1];
      assert forall i :: 0 <= i < |before| ==> before[i] == actions[i];
      StuckFrom(start, pc, p, before);
      StuckStep(start, Run(start, before), pc, p, actions[|actions| - 1]);
    }
  }

  /** Without a context, and for a response without a handler, the worker stays where it is in
      every continuation, and reports nothing. */
  lemma StuckForever(s: State, pc: nat, p: Promise, actions: seq<Action>)
    requires Awaiting(s, pc, p) && !CanBeSet(s, p) && forall token :: !HeldUnder(s, p, token)
    ensures Run(s, actions).worker == s.worker
  {
    forall i | 0 <= i < |actions| ensures Spares(s, p, actions[i]) {
    }
    StuckFrom(s, pc, p, actions);
  }

  // ---- A promise that can be set ----

  lemma RunNext(s: State, actions: seq<Action>, a: Action)
    ensures Run(s, actions + [a]) == Step(Run(s, actions), a)
  {
    assert (actions + [a])[..|actions|] == actions;
  }

  function KeysMessage(certificateId: string, token: string): Message {
    Message(Some(KeysDocument(Some(certificateId), Some(""), Some(""), Some(token))),
            Some(RejectionDocument(Some(0), Some(""), Some(""))), true, true)
  }

  lemma ResponseSets(s: State, slot: Slot)
    requires !s.crashed && Listening(s, slot) && Responded(RequestOf(slot)) !in s.promises.values
    ensures var s' := Step(s, Arrive(slot, Topic(slot, s.topics), KeysMessage("", "")));
            s'.worker == s.worker && !s'.crashed && Responded(RequestOf(slot)) in s'.promises.values
  {
    var m := KeysMessage("", "");
    assert Delivered(s, slot, Topic(slot, s.topics));
    assert Answer(slot, Read(slot, m)).Some?;
  }

  /** The library's answer sets the promise of a context that is in place. */
  lemma AnswerSets(s: State, p: Promise, granted: Granted)
    requires !s.crashed && p !in s.promises.values && p in s.owed && HeldUnder(s, p, s.owed[p])
    ensures var s' := Step(s, Answered(p, granted));
            s'.worker == s.worker && !s'.crashed && s'.promises.values == s.promises.values[p := granted.result]
  {
  }

  /** What is still in place sets the promise in one step. */
  lemma OneStepSets(s: State, pc: nat, p: Promise) returns (a: Action)
    requires Awaiting(s, pc, p) && !s.crashed && CanBeSet(s, p) && p !in s.promises.values
    ensures var s' := Step(s, a); Awaiting(s', pc, p) && !s'.crashed && p in s'.promises.values
    ensures Spares(s, p, a)
  {
    if p.Responded? {
      var slot :| RequestOf(slot) == p.request && Listening(s, slot);
      ResponseSets(s, slot);
      a := Arrive(slot, Topic(slot, s.topics), KeysMessage("", ""));
    } else {
      AnswerSets(s, p, Granted(1, true));
      a := Answered(p, Granted(1, true));
    }
    StepKeepsContexts(s, a);
  }

  /** Some continuation takes the worker past its wait for `p` at `pc`, without an answer to
      somebody else's request under the same token. */
  ghost predicate CanGoOn(s: State, pc: nat, p: Promise) {
    exists actions :: AllSpare(s, p, actions) && Run(s, actions).worker.place == Running(pc + 1)
  }

  /** The worker passes a wait whose promise is set. */
  lemma PassesWait(s: State, pc: nat, p: Promise)
    requires Awaiting(s, pc, p) && !s.crashed && p in s.promises.values
    ensures Step(s, Work(Rejected(0), true)).worker.place == Running(pc + 1)
  {
  }

  lemma GoesOnNow(s: State, pc: nat, p: Promise)
    requires Awaiting(s, pc, p) && !s.crashed && p in s.promises.values
    ensures CanGoOn(s, pc, p)
  {
    var work := Work(Rejected(0), true);
    PassesWait(s, pc, p);
    RunNext(s, [], work);
    assert AllSpare(s, p, [] + [work]);
  }

  lemma GoesOnNext(s: State, pc: nat, p: Promise)
    requires Awaiting(s, pc, p) && !s.crashed && p !in s.promises.values && CanBeSet(s, p)
    ensures CanGoOn(s, pc, p)
  {
    var work := Work(Rejected(0), true);
    var a := OneStepSets(s, pc, p);
    PassesWait(Step(s, a), pc, p);
    RunNext(s, [], a);
    RunNext(s, [] + [a], work);
    assert AllSpare(s, p, [] + [a] + [work]);
  }

  lemma CannotGoOn(s: State, pc: nat, p: Promise)
    requires Awaiting(s, pc, p) && !CanBeSet(s, p)
    ensures !CanGoOn(s, pc, p)
  {
    forall actions | AllSpare(s, p, actions) ensures Run(s, actions).worker.place != Running(pc + 1) {
      StuckFrom(s, pc, p, actions);
    }
  }

  /** Main: each of the worker's waits can end if and only if its promise is set, or what would
      set it is in place and, for a context, the library still owes the answer. */
  lemma WaitCanEnd(s: State, pc: nat, p: Promise)
    requires Awaiting(s, pc, p) && !s.crashed
    ensures CanGoOn(s, pc, p) <==> CanBeSet(s, p)
  {
    if p in s.promises.values {
      GoesOnNow(s, pc, p);
    } else if CanBeSet(s, p) {
      GoesOnNext(s, pc, p);
    } else {
      CannotGoOn(s, pc, p);
    }
  }

  // ---- Promises of calls, wherever the worker is ----

  /** The library answers nobody else under the token of the request for `p`, and gives it to no
      further request of the run. */
  predicate LeavesToken(s: State, p: Promise, a: Action) {
    Spares(s, p, a) && (a.Work? && a.submitted.Accepted? ==> !HeldUnder(s, p, a.submitted.token))
  }

  ghost predicate AllLeaveToken(s: State, p: Promise, actions: seq<Action>) {
    forall i :: 0 <= i < |actions| ==> LeavesToken(s, p, actions[i])
  }

  lemma FollowIssuesOn(s: State, pc: nat, instruction: Instruction, submitted: Submitted, ok: bool, p: Promise)
    requires s.worker.place == Running(pc) && instruction == InstructionAt(pc) && !MayIssue(s.worker.place, p)
    ensures !MayIssue(Follow(s, pc, instruction, submitted, ok).worker.place, p)
  {
    WhichInstruction(pc);
  }

  lemma AroundIssuesOn(w: Worker, submitted: Submitted, ok: bool, p: Promise)
    requires !w.place.Running? && !w.place.Storing? && !MayIssue(w.place, p)
    ensures !MayIssue(NextWorker(w, submitted, ok).place, p)
  {
  }

  /** Past the instruction that issues `p` the worker never comes back to it. */
  lemma NeverIssuedAgain(s: State, submitted: Submitted, ok: bool, p: Promise)
    requires !MayIssue(s.worker.place, p)
    ensures !MayIssue(WorkerStep(s, submitted, ok).worker.place, p)
  {
    if s.worker.place.Running? {
      FollowIssuesOn(s, s.worker.place.pc, InstructionAt(s.worker.place.pc), submitted, ok, p);
    } else if !s.worker.place.Storing? {
      AroundIssuesOn(s.worker, submitted, ok, p);
    }
  }

  lemma OutAfterFollowing(start: State, s: State, p: Promise, submitted: Submitted, ok: bool)
    requires OutOfReach(start, s, p) && LeavesToken(start, p, Work(submitted, ok)) && !p.Responded?
    requires s.worker.place.Running? && !MayIssue(s.worker.place, p)
    ensures OutOfReach(start, WorkerStep(s, submitted, ok), p)
  {
    WhichInstruction(s.worker.place.pc);
    FurtherOut(start, s, WorkerStep(s, submitted, ok), p);
  }

  lemma OutAfterStoring(start: State, s: State, p: Promise, q: Promise, token: int)
    requires OutOfReach(start, s, p) && !p.Responded? && q != p
    ensures OutOfReach(start, StoreContext(s, q, token), p)
  {
    FurtherOut(start, s, StoreContext(s, q, token), p);
  }

  lemma OutAfterWork(start: State, s: State, p: Promise, submitted: Submitted, ok: bool)
    requires OutOfReach(start, s, p) && LeavesToken(start, p, Work(submitted, ok)) && !p.Responded?
    requires !MayIssue(s.worker.place, p)
    ensures OutOfReach(start, WorkerStep(s, submitted, ok), p)
  {
    if s.worker.place.Running? {
      OutAfterFollowing(start, s, p, submitted, ok);
    } else if s.worker.place.Storing? {
      OutAfterStoring(start, s, p, s.worker.place.promise, s.worker.place.token);
    } else {
      FurtherOut(start, s, WorkerStep(s, submitted, ok), p);
    }
  }

  lemma {:induction false} NeverSet(start: State, p: Promise, actions: seq<Action>)
    requires StateContextsOk(start) && !CanBeSet(start, p) && !p.Responded? && !MayIssue(start.worker.place, p)
    requires AllLeaveToken(start, p, actions)
    ensures var s := Run(start, actions);
            StateContextsOk(s) && OutOfReach(start, s, p) && !MayIssue(s.worker.place, p)
  {
    if actions != [] {
      var before, a := actions[..|actions| - 1], actions[|actions| - 1];
      assert forall i :: 0 <= i < |before| ==> before[i] == actions[i];
      NeverSet(start, p, before);
      var s := Run(start, before);
      StepKeepsContexts(s, a);
      if a.Work? {
        NeverIssuedAgain(s, a.submitted, a.ok, p);
        OutAfterWork(start, s, p, a.submitted, a.ok);
      } else {
        OutAfterStep(start, s, p, a);
      }
    }
  }

  /** Some continuation sets `p`. */
  ghost predicate WillBeSet(s: State, p: Promise) {
    exists actions :: AllLeaveToken(s, p, actions) && p in Run(s, actions).promises.values
  }

  /** Main, for subscribes and publishes alike: once the worker is past the call, its promise can
      be set, now or at any later time, if and only if it is set, or its context is in place and
      the library still owes the answer. */
  lemma CallCanBeAnswered(s: State, p: Promise)
    requires StateContextsOk(s) && !s.crashed && !p.Responded? && !MayIssue(s.worker.place, p)
    ensures WillBeSet(s, p) <==> CanBeSet(s, p)
  {
    if p in s.promises.values {
      assert AllLeaveToken(s, p, []) && Run(s, []) == s;
    } else if CanBeSet(s, p) {
      var a := Answered(p, Granted(1, true));
      AnswerSets(s, p, Granted(1, true));
      RunNext(s, [], a);
      assert AllLeaveToken(s, p, [] + [a]) && p in Run(s, [] + [a]).promises.values;
    } else {
      forall actions | AllLeaveToken(s, p, actions) ensures p !in Run(s, actions).promises.values {
        NeverSet(s, p, actions);
      }
    }
  }

  /** When the context of an accepted request is stored, its promise can be set if and only if the
      library still owes the answer under that token and, for a publish, the table has room. */
  lemma StoredCallCanBeAnswered(s: State, p: Promise, token: int)
    requires StateContextsOk(s) && !s.crashed && !p.Responded? && s.worker.place == Storing(p, token)
    ensures WillBeSet(Step(s, Work(Rejected(0), true)), p) <==>
            && p in s.owed && s.owed[p] == token
            && (p.SentOut? ==> !TableFull(s))
  {
    var s' := Step(s, Work(Rejected(0), true));
    assert MayIssue(s.worker.place, p) && p !in s.promises.values;
    StepKeepsContexts(s, Work(Rejected(0), true));
    CallCanBeAnswered(s', p);
    assert !Waiting(s.mqtt.subscribes, p) && !Waiting(s.mqtt.publishes, p);
  }

  /** Another subscribe under the token of a pending one takes its promise away. */
  lemma ReusedTokenLosesSubscribe(s: State, slot: Slot, topic: string)
    requires StateContextsOk(s) && !s.crashed && !MayIssue(s.worker.place, SubscribedTo(slot))
    requires SubscribedTo(slot) !in s.promises.values && CanBeSet(s, SubscribedTo(slot))
    ensures !WillBeSet(Step(s, OtherSubscribe(s.owed[SubscribedTo(slot)], topic)), SubscribedTo(slot))
  {
    var a := OtherSubscribe(s.owed[SubscribedTo(slot)], topic);
    StepKeepsContexts(s, a);
    CallCanBeAnswered(Step(s, a), SubscribedTo(slot));
  }

  /** An answer without a response names no token: it is spent, and the promise stays unset. */
  lemma EmptyAnswerIsLost(s: State, p: Promise)
    requires StateContextsOk(s) && !s.crashed && !p.Responded? && !MayIssue(s.worker.place, p)
    requires p !in s.promises.values
    ensures !WillBeSet(Step(s, AnsweredEmpty(p)), p)
  {
    StepKeepsContexts(s, AnsweredEmpty(p));
    CallCanBeAnswered(Step(s, AnsweredEmpty(p)), p);
  }

  function AcceptedSlot(request: Request): Slot {
    if request.CreateKeys? then KeysAccepted else RegisterAccepted
  }

  function RejectedSlot(request: Request): Slot {
    if request.CreateKeys? then KeysRejected else RegisterRejected
  }

  lemma TwoSlots(request: Request, slot: Slot)
    ensures RequestOf(slot) == request <==> slot == AcceptedSlot(request) || slot == RejectedSlot(request)
  {
  }

  lemma AwaitsResponse(request: Request)
    ensures InstructionAt(SendAt(request) + 3) == Await(Responded(request))
  {
  }

  /** The wait for a response that has not come can end if and only if one of its two handlers is
      still in place: other users of the service may have replaced or erased both. */
  lemma ResponseCanCome(s: State, request: Request)
    requires StateContextsOk(s) && !s.crashed && s.worker.place == Running(SendAt(request) + 3)
    requires Responded(request) !in s.promises.values
    ensures CanGoOn(s, SendAt(request) + 3, Responded(request)) <==>
            Listening(s, AcceptedSlot(request)) || Listening(s, RejectedSlot(request))
  {
    AwaitsResponse(request);
    WaitCanEnd(s, SendAt(request) + 3, Responded(request));
    TwoSlots(request, AcceptedSlot(request));
    TwoSlots(request, RejectedSlot(request));
    forall slot | RequestOf(slot) == request ensures slot in {AcceptedSlot(request), RejectedSlot(request)} {
      TwoSlots(request, slot);
    }
  }

  // ---- Publishes that are never confirmed ----

  lemma AwaitsConfirmation(request: Request)
    ensures InstructionAt(SendAt(request)) == Send(request)
    ensures InstructionAt(SendAt(request) + 1) == Await(SentOut(request))
  {
  }

  /** When the context of an accepted publish is stored, the worker can get past its wait if and
      only if the library still owes the answer under that token and the table is not full: an
      answer that came before finds no context and is lost. */
  lemma PublishCanBeConfirmed(s: State, request: Request, token: int)
    requires StateContextsOk(s) && !s.crashed && s.worker.place == Storing(SentOut(request), token)
    ensures var s' := Step(s, Work(Rejected(0), true));
            && s'.worker.place == Running(SendAt(request) + 1)
            && (CanGoOn(s', SendAt(request) + 1, SentOut(request)) <==>
                  && SentOut(request) in s.owed && s.owed[SentOut(request)] == token
                  && !TableFull(s))
  {
    var p := SentOut(request);
    var s' := Step(s, Work(Rejected(0), true));
    AwaitsConfirmation(request);
    assert MayIssue(s.worker.place, p);
    StepKeepsContexts(s, Work(Rejected(0), true));
    WaitCanEnd(s', SendAt(request) + 1, p);
    forall k ensures HeldUnder(s', p, k) <==> k == token && !TableFull(s) {
      assert !Waiting(s.mqtt.publishes, p);
    }
  }

  /** Between its acceptance and the store an answer can come: a publish accepted under a token
      not in use and answered at once cannot be confirmed any more. */
  lemma EarlyAnswerIsLost(s: State, request: Request, token: int, granted: Granted)
    requires StateContextsOk(s) && !s.crashed && s.worker.place == Running(SendAt(request))
    requires token !in s.mqtt.publishes.entries
    ensures var accepted := Step(s, Work(Accepted(token), true));
            var answered := Step(accepted, Answered(SentOut(request), granted));
            var s' := Step(answered, Work(Rejected(0), true));
            s'.worker.place == Running(SendAt(request) + 1) && !CanGoOn(s', SendAt(request) + 1, SentOut(request))
  {
    AwaitsConfirmation(request);
    var accepted := Step(s, Work(Accepted(token), true));
    StepKeepsContexts(s, Work(Accepted(token), true));
    StepKeepsContexts(accepted, Answered(SentOut(request), granted));
    PublishCanBeConfirmed(Step(accepted, Answered(SentOut(request), granted)), request, token);
  }

  /** When another publish is given the token of the one waited for, the worker can go on if and
      only if the table was full and kept the old context. */
  lemma ReusedTokenLosesPublish(s: State, request: Request)
    requires Awaiting(s, SendAt(request) + 1, SentOut(request)) && !s.crashed
    requires SentOut(request) !in s.promises.values && CanBeSet(s, SentOut(request))
    ensures CanGoOn(Step(s, OtherPublish(s.owed[SentOut(request)])), SendAt(request) + 1, SentOut(request)) <==>
            TableFull(s)
  {
    var s' := Step(s, OtherPublish(s.owed[SentOut(request)]));
    StepKeepsContexts(s, OtherPublish(s.owed[SentOut(request)]));
    WaitCanEnd(s', SendAt(request) + 1, SentOut(request));
  }

  /** A publish that the library refuses is not reported to the worker: whatever happens then, it
      stays at its wait and reports no outcome. */
  lemma LostPublishWaitsForever(s: State, request: Request, code: int, actions: seq<Action>)
    requires StateContextsOk(s) && !s.crashed && s.worker.place == Running(SendAt(request))
    ensures Run(Step(s, Work(Rejected(code), true)), actions).worker == s.worker.(place := Running(SendAt(request) + 1))
  {
    var s' := Step(s, Work(Rejected(code), true));
    AwaitsConfirmation(request);
    assert MayIssue(s.worker.place, SentOut(request)) && !Waiting(s.mqtt.publishes, SentOut(request));
    StepKeepsContexts(s, Work(Rejected(code), true));
    StuckForever(s', SendAt(request) + 1, SentOut(request), actions);
  }

  /** Nor is one that finds the table full. */
  lemma UnstoredPublishWaitsForever(s: State, request: Request, token: int, actions: seq<Action>)
    requires StateContextsOk(s) && !s.crashed && s.worker.place == Storing(SentOut(request), token)
    requires TableFull(s)
    ensures Run(Step(s, Work(Rejected(0), true)), actions).worker == s.worker.(place := Running(SendAt(request) + 1))
  {
    var s' := Step(s, Work(Rejected(0), true));
    AwaitsConfirmation(request);
    assert MayIssue(s.worker.place, SentOut(request)) && !Waiting(s.mqtt.publishes, SentOut(request));
    assert s'.mqtt.publishes.entries == s.mqtt.publishes.entries;
    StepKeepsContexts(s, Work(Rejected(0), true));
    StuckForever(s', SendAt(request) + 1, SentOut(request), actions);
  }
}
