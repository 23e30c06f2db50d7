/** Every stretch of the script can be reached: a run in which the broker obliges, up to each
    publish and on to success. */
module FleetSuccess {
  import opened Options
  import opened MqttService
  import opened FleetProvisioning
  import opened FleetProgress
  import opened FleetProtocol
  import opened FleetRegistration
  import opened FleetMessages

  ghost predicate Leads(s: State, t: State) {
    exists actions :: Run(s, actions) == t
  }

  lemma {:induction false} RunAppend(s: State, a: seq<Action>, b: seq<Action>)
    ensures Run(s, a + b) == Run(Run(s, a), b)
  {
    if b == [] {
      assert a + b == a;
    } else {
      RunAppend(s, a, b[..|b| - 1]);
      assert (a + b)[..|a + b| - 1] == a + b[..|b| - 1];
    }
  }

  lemma StepLeads(s: State, t: State, a: Action)
    requires Leads(s, t)
    ensures Leads(s, Step(t, a))
  {
    var actions :| Run(s, actions) == t;
    RunNext(s, actions, a);
    assert Run(s, actions + [a]) == Step(t, a);
  }

  lemma Stay(s: State)
    ensures Leads(s, s)
  {
    assert Run(s, []) == s;
  }

  /** Promises kept so far, and nothing of the run or of others pending. */
  ghost predicate Calm(s: State, pc: nat) {
    && !s.crashed && s.worker == Worker(Running(pc), false, [], false, None)
    && s.mqtt.subscribes.entries == map[] && s.mqtt.publishes.entries == map[]
  }

  predicate Kept(s: State, p: Promise) {
    p in s.promises.values && s.promises.values[p]
  }

  /** The same run, further on in the script. */
  predicate Beside(s: State, t: State) {
    t.topics == s.topics && t.limit == s.limit && t.promises == s.promises && t.mqtt == s.mqtt && t.keyring == s.keyring
  }

  /** Between the two instructions there are only waits and checks, on these promises. */
  ghost predicate OnlyWaits(pc: nat, to: nat, ps: set<Promise>) {
    forall i :: pc <= i < to ==>
      (InstructionAt(i).Await? || InstructionAt(i).Check?) && InstructionAt(i).promise in ps
  }

  lemma WaitsOfExchange(request: Request)
    ensures OnlyWaits(SendAt(request) + 1, SendAt(request) + 5, {SentOut(request), Responded(request)})
  {
  }

  lemma WaitsOfSubscriptions(a: Slot, b: Slot)
    requires (a == KeysAccepted && b == KeysRejected) || (a == RegisterAccepted && b == RegisterRejected)
    ensures OnlyWaits(SubscribeAt(a) + 2, SubscribeAt(a) + 6, {SubscribedTo(a), SubscribedTo(b)})
  {
  }

  /** Waits and checks on kept promises are passed one after another. */
  lemma {:induction false} PassWaits(start: State, s: State, pc: nat, to: nat, ps: set<Promise>) returns (t: State)
    requires Leads(start, s) && Calm(s, pc) && pc <= to
    requires OnlyWaits(pc, to, ps) && forall p :: p in ps ==> Kept(s, p)
    ensures Leads(start, t) && Calm(t, to) && Beside(s, t)
    decreases if pc <= to then to - pc else 0
  {
    t := s;
    if pc < to {
      var i := InstructionAt(pc);
      assert Kept(s, i.promise);
      FollowStep(s, pc, i, Rejected(0));
      StepLeads(start, s, Work(Rejected(0), true));
      t := PassWaits(start, Step(s, Work(Rejected(0), true)), pc + 1, to, ps);
    }
  }

  /** One instruction of the script, given by name. */
  lemma FollowStep(s: State, pc: nat, instruction: Instruction, submitted: Submitted)
    requires !s.crashed && s.worker.place == Running(pc) && InstructionAt(pc) == instruction
    ensures Step(s, Work(submitted, true)) == Follow(s, pc, instruction, submitted, true)
  {
  }

  lemma SubscribesAndUnsubscribes(slot: Slot)
    ensures InstructionAt(SubscribeAt(slot)) == SubscribeTo(slot)
    ensures InstructionAt(UnsubscribeAt(slot)) == UnsubscribeFrom(slot)
  {
  }

  lemma AcceptAndStore(start: State, s: State, slot: Slot, token: int) returns (t: State)
    requires Leads(start, s) && !s.crashed && s.worker.place == Running(SubscribeAt(slot))
    ensures Leads(start, t) && t == StoreContext(Accept(s, SubscribedTo(slot), token), SubscribedTo(slot), token)
  {
    SubscribesAndUnsubscribes(slot);
    FollowStep(s, SubscribeAt(slot), SubscribeTo(slot), Accepted(token));
    StepLeads(start, s, Work(Accepted(token), true));
    var s' := Accept(s, SubscribedTo(slot), token);
    StepLeads(start, s', Work(Accepted(token), true));
    t := Step(s', Work(Accepted(token), true));
  }

  lemma StoredIs(s: State, slot: Slot, token: int)
    ensures StoreContext(Accept(s, SubscribedTo(slot), token), SubscribedTo(slot), token) ==
            s.(worker := s.worker.(place := Running(SubscribeAt(slot) + 1)),
               owed := s.owed[SubscribedTo(slot) := token],
               mqtt := Mqtt(ContextTable.Step(ContextTable.Unlimited, s.mqtt.subscribes,
                                              ContextTable.Store(token, Notify(SubscribedTo(slot)))),
                            s.mqtt.publishes, s.mqtt.handlers[Topic(slot, s.topics) := OnMessage(slot)]))
  {
  }

  /** Accepted by the library, then stored. */
  lemma Subscribing(start: State, s: State, slot: Slot, token: int) returns (t: State)
    requires Leads(start, s) && !s.crashed && s.worker.place == Running(SubscribeAt(slot))
    ensures Leads(start, t) && t.worker == s.worker.(place := Running(SubscribeAt(slot) + 1))
            && t.promises == s.promises
    ensures t.topics == s.topics && t.limit == s.limit && t.crashed == s.crashed && t.keyring == s.keyring
    ensures t.owed == s.owed[SubscribedTo(slot) := token] && HeldUnder(t, SubscribedTo(slot), token)
    ensures t.mqtt.subscribes.entries == s.mqtt.subscribes.entries[token := t.mqtt.subscribes.entries[token]]
    ensures t.mqtt.publishes == s.mqtt.publishes
    ensures t.mqtt.handlers == s.mqtt.handlers[Topic(slot, s.topics) := OnMessage(slot)]
  {
    t := AcceptAndStore(start, s, slot, token);
    StoredIs(s, slot, token);
  }

  lemma Confirming(start: State, s: State, slot: Slot, token: int) returns (t: State)
    requires Leads(start, s) && !s.crashed && SubscribedTo(slot) !in s.promises.values
    requires SubscribedTo(slot) in s.owed && s.owed[SubscribedTo(slot)] == token
             && HeldUnder(s, SubscribedTo(slot), token)
    ensures Leads(start, t) && !t.crashed && t.worker == s.worker && t.topics == s.topics && t.limit == s.limit
    ensures t.keyring == s.keyring
    ensures t.owed == s.owed - {SubscribedTo(slot)}
    ensures t.promises.values == s.promises.values[SubscribedTo(slot) := true]
    ensures t.mqtt.subscribes.entries == s.mqtt.subscribes.entries - {token}
    ensures t.mqtt.publishes == s.mqtt.publishes && t.mqtt.handlers == s.mqtt.handlers
  {
    t := Step(s, Answered(SubscribedTo(slot), Granted(1, true)));
    StepLeads(start, s, Answered(SubscribedTo(slot), Granted(1, true)));
  }

  /** Two subscriptions in a row, confirmed by the broker. */
  lemma SubscribeBoth(start: State, s: State, a: Slot, b: Slot) returns (t: State)
    requires Leads(start, s) && Calm(s, SubscribeAt(a)) && SubscribeAt(b) == SubscribeAt(a) + 1 && a != b
    requires SubscribedTo(a) !in s.promises.values && SubscribedTo(b) !in s.promises.values
    ensures Leads(start, t) && Calm(t, SubscribeAt(a) + 2) && t.topics == s.topics && t.limit == s.limit
    ensures t.keyring == s.keyring
    ensures t.promises.values == s.promises.values[SubscribedTo(a) := true][SubscribedTo(b) := true]
    ensures t.mqtt.handlers == s.mqtt.handlers[Topic(a, s.topics) := OnMessage(a)][Topic(b, s.topics) := OnMessage(b)]
  {
    var s1 := Subscribing(start, s, a, 1);
    var s2 := Subscribing(start, s1, b, 2);
    var s3 := Confirming(start, s2, a, 1);
    t := Confirming(start, s3, b, 2);
  }

  /** Both subscriptions and the checks after them, up to the publish. */
  lemma OpenExchange(start: State, s: State, request: Request, a: Slot, b: Slot) returns (t: State)
    requires Leads(start, s) && Calm(s, SubscribeAt(a))
    requires a == (if request.CreateKeys? then KeysAccepted else RegisterAccepted)
    requires b == (if request.CreateKeys? then KeysRejected else RegisterRejected)
    requires SubscribedTo(a) !in s.promises.values && SubscribedTo(b) !in s.promises.values
    requires Topic(a, s.topics) != "" && Topic(a, s.topics) != Topic(b, s.topics)
    ensures Leads(start, t) && Calm(t, SendAt(request)) && t.topics == s.topics && t.limit == s.limit
    ensures forall p :: p in t.promises.values <==> p in s.promises.values || p in {SubscribedTo(a), SubscribedTo(b)}
    ensures Listening(t, a) && t.keyring == s.keyring
    ensures t.mqtt.handlers == s.mqtt.handlers[Topic(a, s.topics) := OnMessage(a)][Topic(b, s.topics) := OnMessage(b)]
  {
    var s1 := SubscribeBoth(start, s, a, b);
    WaitsOfSubscriptions(a, b);
    t := PassWaits(start, s1, SubscribeAt(a) + 2, SubscribeAt(a) + 6, {SubscribedTo(a), SubscribedTo(b)});
  }

  /** Likewise a publish, when the table of contexts is empty. */
  lemma Sending(start: State, s: State, request: Request, token: int) returns (t: State)
    requires Leads(start, s) && Calm(s, SendAt(request))
    ensures Leads(start, t) && t.worker == s.worker.(place := Running(SendAt(request) + 1)) && t.promises == s.promises
    ensures t.topics == s.topics && t.limit == s.limit && t.crashed == s.crashed && t.keyring == s.keyring
    ensures t.owed == s.owed[SentOut(request) := token] && HeldUnder(t, SentOut(request), token)
    ensures s.trace < t.trace && t.trace[|s.trace|] == SentEvent(s.keyring, request)
    ensures t.mqtt.publishes.entries.Keys == {token}
    ensures t.mqtt.subscribes == s.mqtt.subscribes && t.mqtt.handlers == s.mqtt.handlers
  {
    AwaitsConfirmation(request);
    FollowStep(s, SendAt(request), Send(request), Accepted(token));
    StepLeads(start, s, Work(Accepted(token), true));
    var s' := Step(s, Work(Accepted(token), true));
    StepLeads(start, s', Work(Accepted(token), true));
    t := Step(s', Work(Accepted(token), true));
  }

  lemma ConfirmingSend(start: State, s: State, request: Request, token: int) returns (t: State)
    requires Leads(start, s) && !s.crashed && SentOut(request) !in s.promises.values
    requires SentOut(request) in s.owed && s.owed[SentOut(request)] == token && HeldUnder(s, SentOut(request), token)
    ensures Leads(start, t) && !t.crashed && t.worker == s.worker && t.topics == s.topics && t.limit == s.limit
    ensures t.keyring == s.keyring
    ensures t.promises.values == s.promises.values[SentOut(request) := true]
    ensures t.mqtt.publishes.entries == s.mqtt.publishes.entries - {token}
    ensures t.mqtt.subscribes == s.mqtt.subscribes && t.mqtt.handlers == s.mqtt.handlers
  {
    t := Step(s, Answered(SentOut(request), Granted(1, true)));
    StepLeads(start, s, Answered(SentOut(request), Granted(1, true)));
  }

  /** The accepted message of an exchange arrives. */
  lemma Accepting(start: State, s: State, slot: Slot, pc: nat) returns (t: State)
    requires Leads(start, s) && Calm(s, pc) && Listening(s, slot) && slot in {KeysAccepted, RegisterAccepted}
    requires Responded(RequestOf(slot)) !in s.promises.values
    ensures Leads(start, t) && Calm(t, pc) && t.topics == s.topics && t.limit == s.limit && t.mqtt == s.mqtt
    ensures t.promises.values == s.promises.values[Responded(RequestOf(slot)) := true]
    ensures PairOf(t) == if slot == KeysAccepted then ("", "") else PairOf(s)
  {
    var a := Arrive(slot, Topic(slot, s.topics), KeysMessage("", ""));
    assert Delivered(s, slot, Topic(slot, s.topics));
    t := Step(s, a);
    StepLeads(start, s, a);
  }

  /** Confirmation and response: from after the publish to the end of its checks. */
  lemma Answering(start: State, s: State, request: Request) returns (t: State)
    requires Leads(start, s) && !s.crashed && s.worker == Worker(Running(SendAt(request) + 1), false, [], false, None)
    requires s.mqtt.subscribes.entries == map[] && s.mqtt.publishes.entries.Keys == {1}
    requires SentOut(request) in s.owed && s.owed[SentOut(request)] == 1 && HeldUnder(s, SentOut(request), 1)
    requires Listening(s, AcceptedSlot(request))
    requires SentOut(request) !in s.promises.values && Responded(request) !in s.promises.values
    ensures Leads(start, t) && Calm(t, SendAt(request) + 5) && t.topics == s.topics && t.limit == s.limit
    ensures forall p :: p in t.promises.values <==>
            p in s.promises.values || p in {SentOut(request), Responded(request)}
    ensures t.mqtt.handlers == s.mqtt.handlers
    ensures PairOf(t) == if request == CreateKeys then ("", "") else PairOf(s)
  {
    var s1 := ConfirmingSend(start, s, request, 1);
    var s2 := Accepting(start, s1, AcceptedSlot(request), SendAt(request) + 1);
    WaitsOfExchange(request);
    t := PassWaits(start, s2, SendAt(request) + 1, SendAt(request) + 5, {SentOut(request), Responded(request)});
  }

  /** Publish, confirmation, response. */
  lemma Exchange(start: State, s: State, request: Request) returns (t: State)
    requires Leads(start, s) && Calm(s, SendAt(request)) && Listening(s, AcceptedSlot(request))
    requires SentOut(request) !in s.promises.values && Responded(request) !in s.promises.values
    ensures Leads(start, t) && Calm(t, SendAt(request) + 5) && t.topics == s.topics && t.limit == s.limit
    ensures forall p :: p in t.promises.values <==>
            p in s.promises.values || p in {SentOut(request), Responded(request)}
    ensures t.mqtt.handlers == s.mqtt.handlers
    ensures PairOf(t) == if request == CreateKeys then ("", "") else PairOf(s)
  {
    var s' := Sending(start, s, request, 1);
    t := Answering(start, s', request);
  }

  // ---- The run ----

  /** Topics that do not get into each other's way. */
  predicate Separate(topics: Topics) {
    && topics.keysAccepted != "" && topics.keysAccepted != topics.keysRejected
    && topics.registerAccepted != "" && topics.registerAccepted != topics.registerRejected
    && topics.keysAccepted != topics.registerAccepted && topics.keysAccepted != topics.registerRejected
  }

  lemma TemplateTopicsAreSeparate(templateName: string)
    ensures Separate(TopicsFor(templateName))
  {
    var keys, register := RequestTopic(CreateKeys, templateName), RequestTopic(RegisterThing, templateName);
    DifferentVerdicts(keys);
    DifferentVerdicts(register);
    assert keys[5] == 'c' && (keys + "/accepted")[5] == 'c';
    assert register[5] == 'p' && (register + "/accepted")[5] == 'p' && (register + "/rejected")[5] == 'p';
  }

  lemma DifferentVerdicts(topic: string)
    ensures topic + "/accepted" != topic + "/rejected"
  {
    assert (topic + "/accepted")[|topic| + 1] == 'a' && (topic + "/rejected")[|topic| + 1] == 'r';
  }

  lemma Connect(topics: Topics, limit: ContextTable.Limit) returns (t: State)
    ensures Leads(Initial(topics, limit), t) && Calm(t, 0) && t.topics == topics && t.limit == limit
            && t.promises.values == map[]
  {
    var s := Initial(topics, limit);
    var work := Work(Rejected(0), true);
    Stay(s);
    StepLeads(s, s, work);
    StepLeads(s, Step(s, work), work);
    t := Step(Step(s, work), work);
  }

  /** With a broker that obliges, the worker reaches its first publish. */
  lemma ReachCreateKeys(topics: Topics, limit: ContextTable.Limit) returns (t: State)
    requires Separate(topics)
    ensures Leads(Initial(topics, limit), t) && Calm(t, SendAt(CreateKeys)) && t.topics == topics && t.limit == limit
    ensures forall p :: p in t.promises.values <==> p in {SubscribedTo(KeysAccepted), SubscribedTo(KeysRejected)}
    ensures Listening(t, KeysAccepted)
  {
    var s := Connect(topics, limit);
    t := OpenExchange(Initial(topics, limit), s, CreateKeys, KeysAccepted, KeysRejected);
  }

  /** And its second. */
  lemma ReachRegisterThing(topics: Topics, limit: ContextTable.Limit) returns (t: State)
    requires Separate(topics)
    ensures Leads(Initial(topics, limit), t) && Calm(t, SendAt(RegisterThing)) && t.topics == topics && t.limit == limit
    ensures SentOut(RegisterThing) !in t.promises.values && Responded(RegisterThing) !in t.promises.values
    ensures Responded(CreateKeys) in t.promises.values && PairOf(t) == ("", "")
    ensures Listening(t, KeysAccepted) && Listening(t, RegisterAccepted)
  {
    var s := ReachCreateKeys(topics, limit);
    var s' := Exchange(Initial(topics, limit), s, CreateKeys);
    t := OpenExchange(Initial(topics, limit), s', RegisterThing, RegisterAccepted, RegisterRejected);
  }

  lemma Unsubscribing(start: State, s: State, slot: Slot) returns (t: State)
    requires Leads(start, s) && Calm(s, UnsubscribeAt(slot))
    ensures Leads(start, t) && Calm(t, UnsubscribeAt(slot) + 1) && t.keyring == s.keyring
  {
    SubscribesAndUnsubscribes(slot);
    FollowStep(s, UnsubscribeAt(slot), UnsubscribeFrom(slot), Accepted(0));
    StepLeads(start, s, Work(Accepted(0), true));
    t := Step(s, Work(Accepted(0), true));
  }

  /** The report and the teardown. */
  lemma Ending(start: State, s: State) returns (t: State)
    requires Leads(start, s) && Calm(s, SCRIPT_LENGTH)
    ensures Leads(start, t) && t.worker == Worker(Finished, true, [Provisioned], false, None)
    ensures t.keyring == s.keyring
  {
    var work := Work(Accepted(0), true);
    FollowStep(s, SCRIPT_LENGTH, Succeed, Accepted(0));
    StepLeads(start, s, work);
    var s' := Follow(s, SCRIPT_LENGTH, Succeed, Accepted(0), true);
    StepLeads(start, s', work);
    t := Step(s', work);
  }

  /** The four unsubscribes and what comes after them. */
  lemma Finishing(start: State, s: State) returns (t: State)
    requires Leads(start, s) && Calm(s, 22)
    ensures Leads(start, t) && t.worker == Worker(Finished, true, [Provisioned], false, None)
    ensures t.keyring == s.keyring
  {
    var s1 := Unsubscribing(start, s, RegisterRejected);
    var s2 := Unsubscribing(start, s1, RegisterAccepted);
    var s3 := Unsubscribing(start, s2, KeysRejected);
    var s4 := Unsubscribing(start, s3, KeysAccepted);
    t := Ending(start, s4);
  }

  /** With a broker that obliges, provisioning succeeds and ends. */
  lemma SeparateTopicsSucceed(topics: Topics, limit: ContextTable.Limit) returns (t: State)
    requires Separate(topics)
    ensures Leads(Initial(topics, limit), t) && t.worker == Worker(Finished, true, [Provisioned], false, None)
  {
    var s := ReachRegisterThing(topics, limit);
    var s' := Exchange(Initial(topics, limit), s, RegisterThing);
    t := Finishing(Initial(topics, limit), s');
  }

  /** For every template and buffer size there is a run that ends provisioned. */
  lemma ProvisioningCanSucceed(templateName: string, limit: ContextTable.Limit)
    ensures exists actions ::
              Run(Initial(TopicsFor(templateName), limit), actions).worker ==
              Worker(Finished, true, [Provisioned], false, None)
  {
    TemplateTopicsAreSeparate(templateName);
    var t := SeparateTopicsSucceed(TopicsFor(templateName), limit);
  }

  // ---- Runs that do not ----

  /** A state of a run from the start. */
  ghost predicate Reachable(templateName: string, limit: ContextTable.Limit, s: State) {
    Leads(Initial(TopicsFor(templateName), limit), s)
  }

  lemma ReachablePublish(templateName: string, limit: ContextTable.Limit) returns (s: State)
    ensures Reachable(templateName, limit, s) && StateContextsOk(s)
    ensures Calm(s, SendAt(CreateKeys)) && Listening(s, KeysAccepted)
  {
    TemplateTopicsAreSeparate(templateName);
    s := ReachCreateKeys(TopicsFor(templateName), limit);
    var actions :| Run(Initial(TopicsFor(templateName), limit), actions) == s;
    ContextsReachable(TopicsFor(templateName), limit, actions);
  }

  /** For every template there is a run whose first publish is refused, and one whose first
      publish is answered before its context is stored: neither can go on. */
  lemma LosingRunsExist(templateName: string, limit: ContextTable.Limit) returns (refused: State, early: State)
    ensures Reachable(templateName, limit, refused) && refused.worker.place == Running(SendAt(CreateKeys) + 1)
    ensures forall actions :: Run(refused, actions).worker == refused.worker
    ensures Reachable(templateName, limit, early) && early.worker.place == Running(SendAt(CreateKeys) + 1)
    ensures !CanGoOn(early, SendAt(CreateKeys) + 1, SentOut(CreateKeys))
  {
    var start := Initial(TopicsFor(templateName), limit);
    var s := ReachablePublish(templateName, limit);
    refused := Step(s, Work(Rejected(-1), true));
    StepLeads(start, s, Work(Rejected(-1), true));
    forall actions ensures Run(refused, actions).worker == refused.worker {
      LostPublishWaitsForever(s, CreateKeys, -1, actions);
      LostPublishWaitsForever(s, CreateKeys, -1, []);
    }
    early := AnsweredEarly(start, s);
  }

  lemma AnsweredEarly(start: State, s: State) returns (t: State)
    requires Leads(start, s) && StateContextsOk(s) && Calm(s, SendAt(CreateKeys))
    ensures Leads(start, t) && t.worker.place == Running(SendAt(CreateKeys) + 1)
    ensures !CanGoOn(t, SendAt(CreateKeys) + 1, SentOut(CreateKeys))
  {
    var answer := Answered(SentOut(CreateKeys), Granted(1, true));
    var accepted := Step(s, Work(Accepted(1), true));
    StepLeads(start, s, Work(Accepted(1), true));
    StepLeads(start, accepted, answer);
    StepLeads(start, Step(accepted, answer), Work(Rejected(0), true));
    t := Step(Step(accepted, answer), Work(Rejected(0), true));
    EarlyAnswerIsLost(s, CreateKeys, 1, Granted(1, true));
  }

  /** And one that a message without any document ends, by making its handler throw. */
  lemma CrashingRunExists(templateName: string, limit: ContextTable.Limit) returns (s: State)
    ensures Reachable(templateName, limit, s) && s.crashed
  {
    var t := ReachablePublish(templateName, limit);
    var a := Arrive(KeysAccepted, Topic(KeysAccepted, t.topics), Message(None, None, true, true));
    assert Delivered(t, KeysAccepted, Topic(KeysAccepted, t.topics));
    StepLeads(Initial(TopicsFor(templateName), limit), t, a);
    s := Step(t, a);
  }

  // ---- Runs in which a later keys response counts ----

  lemma LeadsOn(s: State, t: State, u: State)
    requires Leads(s, t) && Leads(t, u)
    ensures Leads(s, u)
  {
    var a :| Run(s, a) == t;
    var b :| Run(t, b) == u;
    RunAppend(s, a, b);
  }

  lemma {:induction false} RunTraceGrows(s: State, actions: seq<Action>)
    ensures s.trace <= Run(s, actions).trace
  {
    if actions != [] {
      RunTraceGrows(s, actions[..|actions| - 1]);
      TraceGrows(Run(s, actions[..|actions| - 1]), actions[|actions| - 1]);
    }
  }

  lemma LeadsTrace(s: State, t: State)
    requires Leads(s, t)
    ensures s.trace <= t.trace
  {
    var actions :| Run(s, actions) == t;
    RunTraceGrows(s, actions);
  }

  /** Another keys response, after the one that counted. */
  lemma RepeatingKeys(start: State, s: State, pc: nat, certificateId: string, token: string) returns (t: State)
    requires Leads(start, s) && Calm(s, pc) && Listening(s, KeysAccepted) && Responded(CreateKeys) in s.promises.values
    ensures Leads(start, t) && Calm(t, pc) && t.topics == s.topics && t.limit == s.limit && t.mqtt == s.mqtt
    ensures t.promises == s.promises && t.keyring == Keyring(certificateId, token, Some(|s.trace|))
    ensures t.trace == s.trace + [Handled(KeysAccepted, Keys(certificateId, token))]
  {
    var a := Arrive(KeysAccepted, Topic(KeysAccepted, s.topics), KeysMessage(certificateId, token));
    assert Delivered(s, KeysAccepted, Topic(KeysAccepted, s.topics));
    t := Step(s, a);
    StepLeads(start, s, a);
  }

  /** From a state after the publish to success, with another keys response on the way. */
  lemma SucceedRepeating(s: State, certificateId: string, token: string) returns (t: State, f: nat)
    requires !s.crashed && s.worker == Worker(Running(SendAt(RegisterThing) + 1), false, [], false, None)
    requires s.mqtt.subscribes.entries == map[] && s.mqtt.publishes.entries.Keys == {1}
    requires SentOut(RegisterThing) in s.owed && s.owed[SentOut(RegisterThing)] == 1
    requires HeldUnder(s, SentOut(RegisterThing), 1)
    requires Listening(s, KeysAccepted) && Listening(s, RegisterAccepted) && Responded(CreateKeys) in s.promises.values
    requires SentOut(RegisterThing) !in s.promises.values && Responded(RegisterThing) !in s.promises.values
    ensures Leads(s, t) && t.worker == Worker(Finished, true, [Provisioned], false, None)
    ensures t.keyring == Keyring(certificateId, token, Some(f)) && |s.trace| <= f
  {
    Stay(s);
    var s1 := Answering(s, s, RegisterThing);
    LeadsTrace(s, s1);
    f := |s1.trace|;
    var s2 := RepeatingKeys(s, s1, 22, certificateId, token);
    t := Finishing(s, s2);
  }

  /** For any topics that keep apart, any limit and any pair there is a run that ends provisioned,
      whose publish carried empty strings and whose files are those of the given pair. */
  lemma OtherFilesRun(topics: Topics, limit: ContextTable.Limit, certificateId: string, token: string)
    returns (t: State, n: nat, f: nat)
    requires Separate(topics)
    ensures Leads(Initial(topics, limit), t) && t.worker == Worker(Finished, true, [Provisioned], false, None)
    ensures n < f && f < |t.trace| && t.trace[n] == Sent(RegisterThing, "", "")
    ensures WrittenLast(t.trace, f) && t.trace[f].body == Keys(certificateId, token)
  {
    var start := Initial(topics, limit);
    var s := ReachRegisterThing(topics, limit);
    var s1 := Sending(start, s, RegisterThing, 1);
    n := |s.trace|;
    t, f := SucceedRepeating(s1, certificateId, token);
    LeadsTrace(s1, t);
    LeadsOn(start, s1, t);
    var actions :| Run(start, actions) == t;
    ProvisionedNeverCrashes(topics, limit, actions);
    ProtocolReachable(topics, limit, actions);
  }

  /** So a provisioned run can leave files that do not belong to the registered pair, and so it
      can, with a plain repetition, leave files that do although a keys message came later. */
  lemma FilesOfAnotherPair(templateName: string, limit: ContextTable.Limit, certificateId: string, token: string)
    returns (t: State, n: nat, f: nat)
    ensures Reachable(templateName, limit, t) && t.worker == Worker(Finished, true, [Provisioned], false, None)
    ensures n < f && WrittenLast(t.trace, f) && IsRegistration(t.trace, n)
    ensures FilesMatch(t.trace, f, n) <==> (certificateId, token) == ("", "")
  {
    TemplateTopicsAreSeparate(templateName);
    t, n, f := OtherFilesRun(TopicsFor(templateName), limit, certificateId, token);
  }

  /** Event `n` is a publish of RegisterThing. */
  predicate IsRegistration(trace: seq<Event>, n: nat) {
    n < |trace| && trace[n].Sent? && trace[n].request == RegisterThing
  }

  /** And one in which the publish carries the pair of a later response than the one that settled
      the promise. */
  lemma RegisteredWithLaterPair(templateName: string, limit: ContextTable.Limit, certificateId: string, token: string)
    returns (s: State, t: State)
    ensures Reachable(templateName, limit, s) && Responded(CreateKeys) in s.promises.values && PairOf(s) == ("", "")
    ensures Reachable(templateName, limit, t) && s.trace < t.trace
    ensures exists n :: |s.trace| < n < |t.trace| && t.trace[n] == Sent(RegisterThing, certificateId, token)
  {
    TemplateTopicsAreSeparate(templateName);
    var topics := TopicsFor(templateName);
    s := ReachRegisterThing(topics, limit);
    t := SendingLaterPair(Initial(topics, limit), s, certificateId, token);
    assert t.trace[|s.trace| + 1] == Sent(RegisterThing, certificateId, token);
  }

  lemma SendingLaterPair(start: State, s: State, certificateId: string, token: string) returns (t: State)
    requires Leads(start, s) && Calm(s, SendAt(RegisterThing)) && Listening(s, KeysAccepted)
    requires Responded(CreateKeys) in s.promises.values
    ensures Leads(start, t) && s.trace < t.trace && |t.trace| > |s.trace| + 1
    ensures t.trace[|s.trace| + 1] == Sent(RegisterThing, certificateId, token)
  {
    var s' := RepeatingKeys(start, s, SendAt(RegisterThing), certificateId, token);
    t := Sending(start, s', RegisterThing, 1);
  }
}
