/** What messages do to a provisioning run: which end the process, which change the pair that
    RegisterThing carries, and whose certificate files are on disk in the end. */
module FleetMessages {
  import opened MqttService
  import opened FleetProvisioning
  import opened FleetProtocol
  import opened FleetRegistration
  import opened FleetOutcome

  // ---- Messages that end the process ----

  /** What the handler of a slot needs to get to its end. */
  predicate Suffices(slot: Slot, m: Message) {
    match slot
    case KeysAccepted =>
      && m.keys.Some? && m.keys.value.certificateId.Some? && m.keys.value.certificatePem.Some?
      && m.keys.value.privateKey.Some? && m.keys.value.token.Some? && m.filesOpen
    case RegisterAccepted => m.filesOpen && m.parsed
    case _ =>
      && m.rejection.Some? && m.rejection.value.statusCode.Some? && m.rejection.value.errorCode.Some?
      && m.rejection.value.errorMessage.Some?
  }

  /** A message ends the process if and only if it is delivered and lacks something its handler
      needs; otherwise it counts for the request of its topic, with the verdict of its topic. */
  lemma MessageEndsProcess(s: State, slot: Slot, topic: string, m: Message)
    requires !s.crashed
    ensures var s' := Step(s, Arrive(slot, topic, m));
            && (s'.crashed <==> Delivered(s, slot, topic) && !Suffices(slot, m))
            && (Delivered(s, slot, topic) && Suffices(slot, m) && Responded(RequestOf(slot)) !in s.promises.values ==>
                  s'.promises.values == s.promises.values[Responded(RequestOf(slot)) := Accepts(slot)])
  {
    AnswersFollowTopics(slot, Read(slot, m));
    assert Suffices(slot, m) <==> Answer(slot, Read(slot, m)).Some?;
  }

  predicate IsThrown(e: Event) {
    e.Handled? && e.body.Thrown?
  }

  ghost predicate HasThrown(trace: seq<Event>) {
    exists i :: 0 <= i < |trace| && IsThrown(trace[i])
  }

  lemma HasThrownNext(trace: seq<Event>, e: Event)
    ensures HasThrown(trace + [e]) <==> HasThrown(trace) || IsThrown(e)
  {
    assert (trace + [e])[|trace|] == e;
    if HasThrown(trace) {
      var i :| 0 <= i < |trace| && IsThrown(trace[i]);
      assert IsThrown((trace + [e])[i]);
    }
  }

  /** The worker's steps add no message. */
  lemma WorkerAddsNone(s: State, submitted: Submitted, ok: bool)
    ensures var s' := WorkerStep(s, submitted, ok);
            s'.crashed == s.crashed && (HasThrown(s'.trace) <==> HasThrown(s.trace))
  {
    if s.worker.place.Running? {
      var pc := s.worker.place.pc;
      if InstructionAt(pc).Send? && submitted.Accepted? && ok {
        HasThrownNext(s.trace, SentEvent(s.keyring, InstructionAt(pc).request));
      } else {
        FollowMoves(s, pc, InstructionAt(pc), submitted, ok);
        HasThrownNext(s.trace, Reported(Provisioned));
      }
    } else if !s.worker.place.Storing? {
      AroundMoves(s, submitted, ok);
      HasThrownNext(s.trace, Reported(Error));
    }
  }

  lemma CallBackAddsNone(s: State, handler: Handler, value: bool)
    requires !CallBack(s, handler, value).promises.error
    ensures var s' := CallBack(s, handler, value);
            s'.crashed == s.crashed && (HasThrown(s'.trace) <==> HasThrown(s.trace))
  {
    if handler.Notify? {
      HasThrownNext(s.trace, Settled(handler.promise, value));
    }
  }

  lemma CompletionAddsNone(s: State, a: Action)
    requires a.Answered? || a.SubscribeCompleted? || a.SendCompleted?
    requires !Act(s, a).promises.error
    ensures var s' := Act(s, a); s'.crashed == s.crashed && (HasThrown(s'.trace) <==> HasThrown(s.trace))
  {
    if a.Answered? && a.promise !in s.owed {
      return;
    }
    var token := if a.Answered? then s.owed[a.promise] else a.token;
    var rest := if a.Answered? then s.(owed := s.owed - {a.promise}) else s;
    if a.SubscribeCompleted? || (a.Answered? && a.promise.SubscribedTo?) {
      var t := s.mqtt.subscribes;
      var after := ContextTable.Step(ContextTable.Unlimited, t, ContextTable.Complete(token, a.granted));
      if token in t.entries {
        CallBackAddsNone(rest.(mqtt := s.mqtt.(subscribes := after)), t.entries[token].ctx, a.granted.result);
      }
    } else {
      var t, result := s.mqtt.publishes, if a.Answered? then a.granted.result else a.result;
      var after := ContextTable.Step(s.limit, t, ContextTable.Complete(token, result));
      if token in t.entries {
        CallBackAddsNone(rest.(mqtt := s.mqtt.(publishes := after)), t.entries[token].ctx, result);
      }
    }
  }

  lemma HandleAddsOne(s: State, slot: Slot, m: Message)
    requires !s.crashed
    ensures var s' := Handle(s, slot, m); HasThrown(s'.trace) <==> HasThrown(s.trace) || s'.crashed
  {
    var e := Handled(slot, Read(slot, m));
    HasThrownNext(s.trace, e);
    var answer := Answer(slot, Read(slot, m));
    if answer.Some? {
      HasThrownNext(s.trace + [e], Settled(Responded(answer.value.0), answer.value.1));
    }
  }

  lemma StepTellsCrash(s: State, a: Action)
    requires s.crashed <==> HasThrown(s.trace)
    requires !Step(s, a).promises.error
    ensures Step(s, a).crashed <==> HasThrown(Step(s, a).trace)
  {
    if !s.crashed {
      match a
      case Work(submitted, ok) => WorkerAddsNone(s, submitted, ok);
      case Arrive(slot, _, message) => HandleAddsOne(s, slot, message);
      case Answered(_, _) => CompletionAddsNone(s, a);
      case SubscribeCompleted(_, _) => CompletionAddsNone(s, a);
      case SendCompleted(_, _) => CompletionAddsNone(s, a);
      case _ =>
    }
  }

  /** In every run the process has ended if and only if a handler was called with a message that
      makes it throw: nothing else, no completion in particular, ends it. */
  lemma {:induction false} CrashedByThrownMessage(topics: Topics, limit: ContextTable.Limit, actions: seq<Action>)
    ensures var s := Run(Initial(topics, limit), actions); s.crashed <==> HasThrown(s.trace)
  {
    if actions != [] {
      CrashedByThrownMessage(topics, limit, actions[..|actions| - 1]);
      NoPromiseIsSetTwice(topics, limit, actions);
      StepTellsCrash(Run(Initial(topics, limit), actions[..|actions| - 1]), actions[|actions| - 1]);
    }
  }

  /** A provisioned run is out of reach: nothing ends the process any more on its account. */
  lemma {:induction false} ProvisionedNeverCrashes(topics: Topics, limit: ContextTable.Limit, actions: seq<Action>)
    requires Run(Initial(topics, limit), actions).worker.isProvisioned
    ensures !Run(Initial(topics, limit), actions).crashed
  {
    var before, last := actions[..|actions| - 1], actions[|actions| - 1];
    var s := Run(Initial(topics, limit), before);
    NoPromiseIsSetTwice(topics, limit, actions);
    if s.worker.isProvisioned {
      ProvisionedNeverCrashes(topics, limit, before);
      EndReachable(topics, limit, before);
      NobodyListens(s);
      StepKeepsAlive(s, last);
    } else {
      ProvisioningStep(s, last);
    }
  }

  lemma StepKeepsAlive(s: State, a: Action)
    requires !s.crashed && !Step(s, a).promises.error
    requires forall t :: t in s.mqtt.handlers ==> !s.mqtt.handlers[t].OnMessage?
    ensures !Step(s, a).crashed
  {
    match a
    case Work(submitted, ok) => WorkerAddsNone(s, submitted, ok);
    case Answered(_, _) => CompletionAddsNone(s, a);
    case SubscribeCompleted(_, _) => CompletionAddsNone(s, a);
    case SendCompleted(_, _) => CompletionAddsNone(s, a);
    case _ =>
  }

  /** Only a step of the worker marks the data provisioned. */
  lemma ProvisioningStep(s: State, a: Action)
    requires !s.worker.isProvisioned && Step(s, a).worker.isProvisioned
    ensures !Step(s, a).crashed
  {
    if a.Work? {
      WorkerAddsNone(s, a.submitted, a.ok);
    }
  }

  // ---- Messages that change the pair ----

  /** The certificate and the token that a publish of RegisterThing would carry. */
  function PairOf(s: State): (string, string) {
    (s.keyring.certificateId, s.keyring.token)
  }

  /** Only a message changes the pair. */
  lemma PairStays(s: State, a: Action)
    requires !a.Arrive?
    ensures PairOf(Step(s, a)) == PairOf(s)
  {
    if a.Work? {
      if s.worker.place.Running? {
        PairStaysFollowing(s, s.worker.place.pc, InstructionAt(s.worker.place.pc), a.submitted, a.ok);
      }
    } else if a.Answered? {
      PairStaysCompleting(s, a);
    }
  }

  lemma PairStaysCompleting(s: State, a: Action)
    requires a.Answered?
    ensures PairOf(Act(s, a)) == PairOf(s)
  {
  }

  lemma SamePairNoted(s: State, t: State, slot: Slot, topic: string, m: Message)
    requires SameCourse(s, t) && PairOf(s) == PairOf(t)
    ensures PairOf(Act(s, Arrive(slot, topic, m))) == PairOf(Act(t, Arrive(slot, topic, m)))
  {
    NotedPair(s, slot, m);
    NotedPair(t, slot, m);
  }

  lemma NotedPair(s: State, slot: Slot, m: Message)
    ensures Handle(s, slot, m).keyring == Note(s.keyring, slot, m, |s.trace|)
  {
  }

  lemma SamePairStep(s: State, t: State, a: Action)
    requires SameCourse(s, t) && PairOf(s) == PairOf(t)
    ensures PairOf(Step(s, a)) == PairOf(Step(t, a))
  {
    if a.Arrive? {
      SamePairNoted(s, t, a.slot, a.topic, a.message);
    } else {
      PairStays(s, a);
      PairStays(t, a);
    }
  }

  lemma PairStaysFollowing(s: State, pc: nat, instruction: Instruction, submitted: Submitted, ok: bool)
    ensures PairOf(Follow(s, pc, instruction, submitted, ok)) == PairOf(s)
  {
  }

  lemma {:induction false} SamePairRun(s: State, t: State, actions: seq<Action>)
    requires SameCourse(s, t) && PairOf(s) == PairOf(t)
    ensures SameCourse(Run(s, actions), Run(t, actions)) && PairOf(Run(s, actions)) == PairOf(Run(t, actions))
  {
    SameRun(s, t, actions);
    if actions != [] {
      var before := actions[..|actions| - 1];
      SamePairRun(s, t, before);
      SamePairStep(Run(s, before), Run(t, before), actions[|actions| - 1]);
    }
  }

  /** The message gives another pair than the one at hand. */
  predicate ReplacesPair(s: State, slot: Slot, m: Message) {
    slot == KeysAccepted && Read(slot, m).Keys? && Read(slot, m) != Keys(s.keyring.certificateId, s.keyring.token)
  }

  /** A message inserted at any point leaves the course of every continuation and the pair it
      carries as they were if and only if it is not delivered, or its request has its response
      and it does not give another pair: a repeated keys acceptance does replace the pair. */
  lemma LaterResponsesKeepThePair(s: State, slot: Slot, topic: string, m: Message)
    ensures (forall rest :: SameToTheEnd(Step(s, Arrive(slot, topic, m)), s, rest)) <==>
            s.crashed || !Delivered(s, slot, topic) || (Repeats(s, slot, m) && !ReplacesPair(s, slot, m))
  {
    var s' := Step(s, Arrive(slot, topic, m));
    OnlyTheFirstAnswerCounts(s, slot, topic, m);
    if SameCourse(s', s) && PairOf(s') == PairOf(s) {
      forall rest ensures SameToTheEnd(s', s, rest) {
        SamePairRun(s', s, rest);
      }
    } else {
      assert Run(s', []) == s' && Run(s, []) == s;
      assert !SameToTheEnd(s', s, []);
    }
  }

  ghost predicate SameToTheEnd(s: State, t: State, rest: seq<Action>) {
    SameCourse(Run(s, rest), Run(t, rest)) && PairOf(Run(s, rest)) == PairOf(Run(t, rest))
  }

  // ---- Whose files are on disk ----

  /** Message `f` is the last one of the run that gave keys, so its files are on disk. */
  predicate WrittenLast(trace: seq<Event>, f: nat) {
    f < |trace| && GivesKeys(trace[f]) && forall i :: f < i < |trace| ==> !GivesKeys(trace[i])
  }

  /** The files of message `f` are those of the pair that the publish at `n` carried. */
  predicate FilesMatch(trace: seq<Event>, f: nat, n: nat) {
    && f < |trace| && trace[f].Handled? && n < |trace| && trace[n].Sent?
    && trace[f].body == Keys(trace[n].certificateId, trace[n].token)
  }

  /** The last keys message handled after the publish, if there is one, repeats its pair. */
  ghost predicate LastRepeats(trace: seq<Event>, n: nat)
    requires n < |trace| && trace[n].Sent?
  {
    forall i :: n < i < |trace| && GivesKeys(trace[i]) && (forall j :: i < j < |trace| ==> !GivesKeys(trace[j])) ==>
      trace[i].body == Keys(trace[n].certificateId, trace[n].token)
  }

  lemma LatestKeys(s: State, n: nat, ev: Evidence) returns (f: nat)
    requires ProtocolOk(s) && !s.crashed && Justifies(s.trace, n, ev)
    ensures WrittenLast(s.trace, f)
    ensures FilesMatch(s.trace, f, n) <==> LastRepeats(s.trace, n)
  {
    assert GivesKeys(s.trace[ev.keysFrom]);
    f := s.keyring.from.value;
    assert f < n ==> f == ev.keysFrom;
    assert f != n;
  }

  /** In a provisioned run the certificate files on disk are those of the pair that RegisterThing
      carried if and only if no keys message was handled after its publish, or the last one that
      was repeats that pair. */
  lemma FilesBelongToThePair(topics: Topics, limit: ContextTable.Limit, actions: seq<Action>) returns (f: nat, n: nat)
    requires Run(Initial(topics, limit), actions).worker.isProvisioned
    ensures var s := Run(Initial(topics, limit), actions);
            && RegisterThing in s.sentAt && n == s.sentAt[RegisterThing] && n < |s.trace| && s.trace[n].Sent?
            && WrittenLast(s.trace, f)
            && (FilesMatch(s.trace, f, n) <==> LastRepeats(s.trace, n))
  {
    var s := Run(Initial(topics, limit), actions);
    EndReachable(topics, limit, actions);
    ProtocolReachable(topics, limit, actions);
    ProvisionedNeverCrashes(topics, limit, actions);
    assert IsTrue(s.promises, SentOut(RegisterThing));
    n := s.sentAt[RegisterThing];
    var ev := RegisterRestsOnEvidence(topics, limit, actions, n);
    f := LatestKeys(s, n, ev);
  }
}
