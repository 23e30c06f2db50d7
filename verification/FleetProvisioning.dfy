/** The fleet provisioning protocol: a worker that follows a fixed script of subscribes,
    publishes and waits on write-once promises, on top of the MQTT service's context tables
    and handler map. Broker answers and messages arrive in any order, repeated or not, and
    other users of the same MQTT service store contexts of their own under any token. */
module FleetProvisioning {
  import opened Options
  import opened ContextTable
  import opened TopicFilters
  import opened MqttService

  datatype Slot = KeysAccepted | KeysRejected | RegisterAccepted | RegisterRejected

  datatype Request = CreateKeys | RegisterThing

  /** The eight promises of a run. */
  datatype Promise = SubscribedTo(slot: Slot) | SentOut(request: Request) | Responded(request: Request)

  /** What a stored callback does: set a promise, handle messages of a slot, or something else. */
  datatype Handler = Notify(promise: Promise) | OnMessage(slot: Slot) | Other

  /** The four topics of a run. */
  datatype Topics = Topics(keysAccepted: string, keysRejected: string, registerAccepted: string,
                           registerRejected: string)

  /** The topic a request is published to. */
  function RequestTopic(request: Request, templateName: string): string {
    match request
    case CreateKeys => "$aws/certificates/create/json"
    case RegisterThing => "$aws/provisioning-templates/" + templateName + "/provision/json"
  }

  function TopicsFor(templateName: string): Topics {
    var keys, register := RequestTopic(CreateKeys, templateName), RequestTopic(RegisterThing, templateName);
    Topics(keys + "/accepted", keys + "/rejected", register + "/accepted", register + "/rejected")
  }

  function Topic(slot: Slot, topics: Topics): string {
    match slot
    case KeysAccepted => topics.keysAccepted
    case KeysRejected => topics.keysRejected
    case RegisterAccepted => topics.registerAccepted
    case RegisterRejected => topics.registerRejected
  }

  /** The request that the messages of a slot respond to. */
  function RequestOf(slot: Slot): Request {
    if slot.KeysAccepted? || slot.KeysRejected? then CreateKeys else RegisterThing
  }

  predicate Accepts(slot: Slot) {
    slot.KeysAccepted? || slot.RegisterAccepted?
  }

  /** Each slot listens on the topic of its own request, followed by the verdict it waits for. */
  lemma TopicsFollowRequests(templateName: string, slot: Slot)
    ensures Topic(slot, TopicsFor(templateName)) ==
            RequestTopic(RequestOf(slot), templateName) + (if Accepts(slot) then "/accepted" else "/rejected")
    ensures TopicsFor(templateName).registerAccepted ==
            "$aws/provisioning-templates/" + templateName + "/provision/json/accepted"
    ensures TopicsFor(templateName).registerRejected ==
            "$aws/provisioning-templates/" + templateName + "/provision/json/rejected"
  {
    assert "/provision/json" + "/accepted" == "/provision/json/accepted";
    assert "/provision/json" + "/rejected" == "/provision/json/rejected";
  }

  /** A message counts for the request whose topic it came on, with the verdict of that topic. */
  lemma AnswersFollowTopics(slot: Slot, body: Body)
    ensures Answer(slot, body).Some? ==> Answer(slot, body).value == (RequestOf(slot), Accepts(slot))
  {
  }

  // ---- The worker's script ----

  datatype Instruction =
    | SubscribeTo(slot: Slot)
    | Await(promise: Promise)       // get() on the future: blocks until the promise is set
    | Check(promise: Promise)       // throws when the value is false
    | Send(request: Request)
    | UnsubscribeFrom(slot: Slot)
    | Succeed

  const SCRIPT_LENGTH: nat := 26

  function InstructionAt(pc: nat): Instruction {
    if pc == 0 then SubscribeTo(KeysAccepted)
    else if pc == 1 then SubscribeTo(KeysRejected)
    else if pc == 2 then Await(SubscribedTo(KeysAccepted))
    else if pc == 3 then Check(SubscribedTo(KeysAccepted))
    else if pc == 4 then Await(SubscribedTo(KeysRejected))
    else if pc == 5 then Check(SubscribedTo(KeysRejected))
    else if pc == 6 then Send(CreateKeys)
    else if pc == 7 then Await(SentOut(CreateKeys))
    else if pc == 8 then Check(SentOut(CreateKeys))
    else if pc == 9 then Await(Responded(CreateKeys))
    else if pc == 10 then Check(Responded(CreateKeys))
    else if pc == 11 then SubscribeTo(RegisterAccepted)
    else if pc == 12 then SubscribeTo(RegisterRejected)
    else if pc == 13 then Await(SubscribedTo(RegisterAccepted))
    else if pc == 14 then Await(SubscribedTo(RegisterRejected))
    else if pc == 15 then Check(SubscribedTo(RegisterAccepted))
    else if pc == 16 then Check(SubscribedTo(RegisterRejected))
    else if pc == 17 then Send(RegisterThing)
    else if pc == 18 then Await(SentOut(RegisterThing))
    else if pc == 19 then Check(SentOut(RegisterThing))
    else if pc == 20 then Await(Responded(RegisterThing))
    else if pc == 21 then Check(Responded(RegisterThing))
    else if pc == 22 then UnsubscribeFrom(RegisterRejected)
    else if pc == 23 then UnsubscribeFrom(RegisterAccepted)
    else if pc == 24 then UnsubscribeFrom(KeysRejected)
    else if pc == 25 then UnsubscribeFrom(KeysAccepted)
    else Succeed
  }

  /** The order in which a cancelled run unsubscribes. */
  function CancelSlot(k: nat): Slot {
    if k == 0 then KeysAccepted
    else if k == 1 then KeysRejected
    else if k == 2 then RegisterAccepted
    else RegisterRejected
  }

  function SubscribeAt(slot: Slot): nat {
    match slot case KeysAccepted => 0 case KeysRejected => 1 case RegisterAccepted => 11 case RegisterRejected => 12
  }

  function SendAt(request: Request): nat {
    match request case CreateKeys => 6 case RegisterThing => 17
  }

  function UnsubscribeAt(slot: Slot): nat {
    match slot case RegisterRejected => 22 case RegisterAccepted => 23 case KeysRejected => 24 case KeysAccepted => 25
  }

  function CheckAt(promise: Promise): nat {
    match promise
    case SubscribedTo(KeysAccepted) => 3
    case SubscribedTo(KeysRejected) => 5
    case SentOut(CreateKeys) => 8
    case Responded(CreateKeys) => 10
    case SubscribedTo(RegisterAccepted) => 15
    case SubscribedTo(RegisterRejected) => 16
    case SentOut(RegisterThing) => 19
    case Responded(RegisterThing) => 21
  }

  // ---- States ----

  datatype Place =
    | Setup                             // certificate files, create, connect
    | Connecting                        // the timed wait for the connection
    | Running(pc: nat)                  // makeProvisioning, at an instruction of the script
    | Storing(promise: Promise, token: int) // inside subscribe or publish: accepted, context not stored yet
    | Cancelling(reached: nat, k: nat)  // its catch block, after failing at `reached`
    | Teardown                          // disconnect and destroy
    | Finished

  datatype Outcome = Provisioned | Error

  /** The members read from an accepted keys response; None when absent or not a string. */
  datatype KeysDocument = KeysDocument(
    certificateId: Option<string>, certificatePem: Option<string>, privateKey: Option<string>, token: Option<string>)

  datatype RejectionDocument = RejectionDocument(statusCode: Option<int>, errorCode: Option<string>,
                                                 errorMessage: Option<string>)

  /** A message as its handler finds it: the document it parses to, if any, and whether the
      files it is to be written to can be opened and read back. */
  datatype Message = Message(
    keys: Option<KeysDocument>, rejection: Option<RejectionDocument>, filesOpen: bool, parsed: bool)

  /** What a message amounts to for its handler. */
  datatype Body =
    | Keys(certificateId: string, token: string)            // the three certificate files are written
    | Registered                                            // the provision file is written and parsed
    | Rejection
    | Thrown                                                // anything else makes the handler throw

  predicate AllFields(d: KeysDocument) {
    d.certificateId.Some? && d.certificatePem.Some? && d.privateKey.Some? && d.token.Some?
  }

  function Read(slot: Slot, m: Message): Body {
    match slot
    case KeysAccepted =>
      if m.keys.Some? && AllFields(m.keys.value) && m.filesOpen
      then Keys(m.keys.value.certificateId.value, m.keys.value.token.value) else Thrown
    case RegisterAccepted => if m.filesOpen && m.parsed then Registered else Thrown
    case _ =>
      if m.rejection.Some? && m.rejection.value.statusCode.Some? && m.rejection.value.errorCode.Some?
         && m.rejection.value.errorMessage.Some?
      then Rejection else Thrown
  }

  datatype Event =
    | Settled(promise: Promise, value: bool)                // a promise got its value
    | Handled(slot: Slot, body: Body)                       // a message handler ran
    | Sent(request: Request, certificateId: string, token: string) // the library accepted a publish
    | Reported(outcome: Outcome)                            // onProvisioned or onError

  /** What the run keeps in the MQTT service. */
  datatype Mqtt = Mqtt(
    subscribes: Table<Handler, Granted>, publishes: Table<Handler, bool>, handlers: map<string, Handler>)

  /** The promises set so far, with the event that set each, and whether an unguarded
      set_value ever hit a promise already set. */
  datatype Promises = Promises(values: map<Promise, bool>, settledAt: map<Promise, nat>, error: bool)

  /** The two strings taken from messages, with the event of the last message that gave both. */
  datatype Keyring = Keyring(certificateId: string, token: string, from: Option<nat>)

  /** `refused` tells where the catch block stood when the library refused an unsubscribe. */
  datatype Worker = Worker(place: Place, isProvisioned: bool, outcomes: seq<Outcome>, teardownFailed: bool,
                           refused: Option<(nat, nat)>)

  datatype State = State(
    topics: Topics,
    limit: Limit,
    mqtt: Mqtt,
    promises: Promises,
    keyring: Keyring,
    worker: Worker,
    owed: map<Promise, int>,   // the library's answers to come: the promise each is for, and its token
    crashed: bool,             // an exception left a callback of the library, which ends the process
    sentAt: map<Request, nat>, // history: event of each accepted publish
    trace: seq<Event>)

  function Initial(topics: Topics, limit: Limit): State {
    State(topics, limit, Mqtt(Empty(), Empty(), map[]), Promises(map[], map[], false), Keyring("", "", None),
          Worker(Setup, false, [], false, None), map[], false, map[], [])
  }

  datatype Action =
    | Work(submitted: Submitted, ok: bool)         // the worker's next step and what the library says to it
    | Answered(promise: Promise, granted: Granted) // the library's one answer to a request of this run
    | AnsweredEmpty(promise: Promise)              // that answer, without a response: it names no token
    | SubscribeCompleted(token: int, granted: Granted) // an answer to somebody else's request, or a null response
    | SendCompleted(token: int, result: bool)
    | SendConfirmed(token: int)
    | Arrive(slot: Slot, topic: string, message: Message)
    | OtherSubscribe(token: int, topic: string)
    | OtherUnsubscribe(topic: string)
    | OtherPublish(token: int)

  // ---- Promises ----

  function Settle(s: State, p: Promise, value: bool): State {
    s.(promises := Promises(s.promises.values[p := value], s.promises.settledAt[p := |s.trace|], s.promises.error),
       trace := s.trace + [Settled(p, value)])
  }

  /** set_value without a try block. */
  function SetPromise(s: State, p: Promise, value: bool): State {
    if p in s.promises.values then s.(promises := s.promises.(error := true), crashed := true) else Settle(s, p, value)
  }

  /** set_value whose exception is caught: the first value stays. */
  function OfferPromise(s: State, p: Promise, value: bool): State {
    if p in s.promises.values then s else Settle(s, p, value)
  }

  // ---- Message handlers ----

  /** What the handler notes down, field by field, before it answers its promise or throws. */
  function Note(k: Keyring, slot: Slot, m: Message, now: nat): Keyring {
    if slot != KeysAccepted || m.keys.None? || m.keys.value.certificateId.None? then k
    else
      var d := m.keys.value;
      if !AllFields(d) then k.(certificateId := d.certificateId.value)
      else Keyring(d.certificateId.value, d.token.value, if m.filesOpen then Some(now) else k.from)
  }

  function Noted(s: State, slot: Slot, m: Message): State {
    s.(keyring := Note(s.keyring, slot, m, |s.trace|), trace := s.trace + [Handled(slot, Read(slot, m))])
  }

  /** The response a message amounts to, unless its handler throws. */
  function Answer(slot: Slot, body: Body): Option<(Request, bool)> {
    match slot
    case KeysAccepted => if body.Keys? then Some((CreateKeys, true)) else None
    case KeysRejected => if body.Rejection? then Some((CreateKeys, false)) else None
    case RegisterAccepted => if body.Registered? then Some((RegisterThing, true)) else None
    case RegisterRejected => if body.Rejection? then Some((RegisterThing, false)) else None
  }

  function Handle(s: State, slot: Slot, m: Message): State {
    var answer := Answer(slot, Read(slot, m));
    if answer.None? then Noted(s, slot, m).(crashed := true)
    else OfferPromise(Noted(s, slot, m), Responded(answer.value.0), answer.value.1)
  }

  // ---- The worker ----

  function Goto(s: State, place: Place): State {
    s.(worker := s.worker.(place := place))
  }

  function Report(s: State, outcome: Outcome, place: Place): State {
    s.(worker := s.worker.(outcomes := s.worker.outcomes + [outcome], place := place),
       trace := s.trace + [Reported(outcome)])
  }

  /** The event of an accepted publish: RegisterThing carries the certificate and the token. */
  function SentEvent(k: Keyring, request: Request): Event {
    if request == CreateKeys then Sent(request, "", "") else Sent(request, k.certificateId, k.token)
  }

  /** The instruction whose context sets `p`. */
  function StoreAt(p: Promise): nat {
    match p
    case SubscribedTo(slot) => SubscribeAt(slot)
    case SentOut(request) => SendAt(request)
    case Responded(_) => 0
  }

  /** The library takes a request: from now on it owes one answer, which may come before the
      worker has stored the context. */
  function Accept(s: State, p: Promise, token: int): State {
    Goto(s, Storing(p, token)).(owed := s.owed[p := token])
  }

  /** The region of subscribe or publish that stores the context. */
  function StoreContext(s: State, p: Promise, token: int): State {
    var next := Goto(s, Running(StoreAt(p) + 1));
    match p
    case SubscribedTo(slot) =>
      next.(mqtt := s.mqtt.(subscribes := ContextTable.Step(Unlimited, s.mqtt.subscribes, Store(token, Notify(p))),
                            handlers := s.mqtt.handlers[Topic(slot, s.topics) := OnMessage(slot)]))
    case SentOut(_) =>
      next.(mqtt := s.mqtt.(publishes := ContextTable.Step(s.limit, s.mqtt.publishes, Store(token, Notify(p)))))
    case Responded(_) => s
  }

  /** One instruction of the script, met at `pc`. */
  function Follow(s: State, pc: nat, instruction: Instruction, submitted: Submitted, ok: bool): State {
    var next, cancel := Goto(s, Running(pc + 1)), Goto(s, Cancelling(pc, 0));
    match instruction
    case SubscribeTo(slot) =>
      if submitted.Rejected? then cancel else Accept(s, SubscribedTo(slot), submitted.token)
    case Await(p) => if p in s.promises.values then next else s
    case Check(p) => if p in s.promises.values && s.promises.values[p] then next else cancel
    case Send(request) =>
      if !ok then cancel // no client
      else if submitted.Rejected? then next
      else Accept(s, SentOut(request), submitted.token)
             .(sentAt := s.sentAt[request := |s.trace|], trace := s.trace + [SentEvent(s.keyring, request)])
    case UnsubscribeFrom(slot) =>
      if submitted.Rejected? then cancel
      else next.(mqtt := s.mqtt.(handlers := s.mqtt.handlers - {Topic(slot, s.topics)}))
    case Succeed => Report(s.(worker := s.worker.(isProvisioned := true)), Provisioned, Teardown)
  }

  /** A topic variable is still empty when the run failed before its subscribe. */
  function CancelTopic(topics: Topics, reached: nat, slot: Slot): string {
    if SubscribeAt(slot) <= reached then Topic(slot, topics) else ""
  }

  function Failed(w: Worker, place: Place): Worker {
    w.(outcomes := w.outcomes + [Error], place := place)
  }

  /** The worker outside makeProvisioning and in its catch block. */
  function NextWorker(w: Worker, submitted: Submitted, ok: bool): Worker {
    match w.place
    case Setup => if ok then w.(place := Connecting) else Failed(w, Finished)
    case Connecting => if ok then w.(place := Running(0)) else Failed(w.(isProvisioned := false), Teardown)
    case Cancelling(reached, k) =>
      if k >= 4 then Failed(w, Finished)
      else if submitted.Rejected? then Failed(w.(refused := Some((reached, k))), Finished)
      else w.(place := Cancelling(reached, k + 1))
    case Teardown => if ok then w.(place := Finished) else Failed(w.(teardownFailed := true), Finished)
    case _ => w
  }

  /** The library unsubscribed for the catch block. */
  predicate Unsubscribes(w: Worker, submitted: Submitted) {
    w.place.Cancelling? && w.place.k < 4 && submitted.Accepted?
  }

  function Around(s: State, submitted: Submitted, ok: bool): State {
    var w := NextWorker(s.worker, submitted, ok);
    s.(worker := w,
       mqtt := if !Unsubscribes(s.worker, submitted) then s.mqtt
               else s.mqtt.(handlers := s.mqtt.handlers
                                        - {CancelTopic(s.topics, s.worker.place.reached,
                                                       CancelSlot(s.worker.place.k))}),
       trace := if w.outcomes == s.worker.outcomes then s.trace else s.trace + [Reported(Error)])
  }

  function WorkerStep(s: State, submitted: Submitted, ok: bool): State {
    if s.worker.place.Running? then Follow(s, s.worker.place.pc, InstructionAt(s.worker.place.pc), submitted, ok)
    else if s.worker.place.Storing? then StoreContext(s, s.worker.place.promise, s.worker.place.token)
    else Around(s, submitted, ok)
  }

  /** The callback of a completed context. */
  function CallBack(s: State, handler: Handler, value: bool): State {
    if handler.Notify? then SetPromise(s, handler.promise, value) else s
  }

  /** A completion calls the context under its token, if there is one, and erases it. */
  function CompleteSubscribe(s: State, token: int, granted: Granted): State {
    var t := s.mqtt.subscribes;
    var done := s.(mqtt := s.mqtt.(subscribes := ContextTable.Step(Unlimited, t, Complete(token, granted))));
    if token in t.entries then CallBack(done, t.entries[token].ctx, granted.result) else done
  }

  function CompleteSend(s: State, token: int, result: bool): State {
    var t := s.mqtt.publishes;
    var done := s.(mqtt := s.mqtt.(publishes := ContextTable.Step(s.limit, t, Complete(token, result))));
    if token in t.entries then CallBack(done, t.entries[token].ctx, result) else done
  }

  /** The run's own handler is called for a message on `topic`. */
  predicate Delivered(s: State, slot: Slot, topic: string) {
    var filter := Topic(slot, s.topics);
    && filter != "" && filter in s.mqtt.handlers && s.mqtt.handlers[filter] == OnMessage(slot)
    && HitCount(filter, topic) > 0
  }

  /** Nothing happens any more once the process has ended. */
  function Step(s: State, a: Action): State {
    if s.crashed then s else Act(s, a)
  }

  function Act(s: State, a: Action): State {
    match a
    case Work(submitted, ok) => WorkerStep(s, submitted, ok)
    case Answered(p, granted) =>
      if p !in s.owed then s
      else if p.SubscribedTo? then CompleteSubscribe(s.(owed := s.owed - {p}), s.owed[p], granted)
      else CompleteSend(s.(owed := s.owed - {p}), s.owed[p], granted.result)
    case AnsweredEmpty(p) => s.(owed := s.owed - {p})
    case SubscribeCompleted(token, granted) => CompleteSubscribe(s, token, granted)
    case SendCompleted(token, result) => CompleteSend(s, token, result)
    case SendConfirmed(token) =>
      s.(mqtt := s.mqtt.(publishes := ContextTable.Step(s.limit, s.mqtt.publishes, Confirm(token))))
    case Arrive(slot, topic, message) => if Delivered(s, slot, topic) then Handle(s, slot, message) else s
    case OtherSubscribe(token, topic) =>
      s.(mqtt := s.mqtt.(subscribes := ContextTable.Step(Unlimited, s.mqtt.subscribes, Store(token, Other)),
                         handlers := s.mqtt.handlers[topic := Other]))
    case OtherUnsubscribe(topic) => s.(mqtt := s.mqtt.(handlers := s.mqtt.handlers - {topic}))
    case OtherPublish(token) =>
      s.(mqtt := s.mqtt.(publishes := ContextTable.Step(s.limit, s.mqtt.publishes, Store(token, Other))))
  }

  function Run(s: State, actions: seq<Action>): State {
    if actions == [] then s else Step(Run(s, actions[..|actions| - 1]), actions[|actions| - 1])
  }

  // ---- Promises and contexts: the invariant ----

  /** The script may still store the context that sets `p`. */
  predicate MayIssue(place: Place, p: Promise) {
    match place
    case Setup => true
    case Connecting => true
    case Running(pc) => !p.Responded? && pc <= StoreAt(p)
    case Storing(q, _) => !p.Responded? && StoreAt(q) <= StoreAt(p)
    case _ => false
  }

  ghost predicate Waiting<R>(t: Table<Handler, R>, p: Promise) {
    exists token :: token in t.entries && t.entries[token].ctx == Notify(p)
  }

  ghost predicate Single<R>(t: Table<Handler, R>) {
    forall i, j :: i in t.entries && j in t.entries && t.entries[i].ctx.Notify? ==>
      t.entries[i].ctx == t.entries[j].ctx ==> i == j
  }

  /** Each context is stored at most once, and gone when its promise is set. */
  ghost predicate ContextsOk(m: Mqtt, promises: Promises, place: Place) {
    && !promises.error
    && Single(m.subscribes) && Single(m.publishes)
    && (forall t :: t in m.subscribes.entries && m.subscribes.entries[t].ctx.Notify? ==>
        m.subscribes.entries[t].ctx.promise.SubscribedTo?)
    && (forall t :: t in m.publishes.entries && m.publishes.entries[t].ctx.Notify? ==>
        m.publishes.entries[t].ctx.promise.SentOut?)
    && (forall p :: p in promises.values || MayIssue(place, p) ==>
        !Waiting(m.subscribes, p) && !Waiting(m.publishes, p))
    && (forall p :: p in promises.values ==> !MayIssue(place, p) || p.Responded?)
  }

  ghost predicate StateContextsOk(s: State) {
    ContextsOk(s.mqtt, s.promises, s.worker.place)
  }

  /** One table after one event, as far as contexts go. */
  lemma TableMoves<R>(limit: Limit, t: Table<Handler, R>, e: ContextTable.Event<Handler, R>)
    requires Single(t) && (e.Store? && e.ctx.Notify? ==> !Waiting(t, e.ctx.promise))
    ensures var t' := ContextTable.Step(limit, t, e);
            && Single(t')
            && (forall p :: Waiting(t', p) ==> Waiting(t, p) || (e.Store? && e.ctx == Notify(p)))
            && (e.Complete? && e.token in t.entries && t.entries[e.token].ctx.Notify? ==>
                  !Waiting(t', t.entries[e.token].ctx.promise))
            && (forall k :: k in t'.entries ==>
                  (k in t.entries && t'.entries[k] == t.entries[k]) || (e.Store? && t'.entries[k].ctx == e.ctx))
  {
    var t' := ContextTable.Step(limit, t, e);
    forall k | k in t'.entries
      ensures (k in t.entries && t'.entries[k] == t.entries[k])
              || (e.Store? && k == e.token && t'.entries[k].ctx == e.ctx)
    {
    }
    forall p | Waiting(t', p) ensures Waiting(t, p) || (e.Store? && e.ctx == Notify(p)) {
      var k :| k in t'.entries && t'.entries[k].ctx == Notify(p);
    }
    if e.Store? && e.ctx.Notify? {
      forall k | k in t.entries ensures t.entries[k].ctx != e.ctx {
        assert !Waiting(t, e.ctx.promise);
      }
    }
  }

  lemma WhichInstruction(pc: nat)
    ensures match InstructionAt(pc)
            case SubscribeTo(slot) => pc == SubscribeAt(slot)
            case Send(request) => pc == SendAt(request)
            case Check(p) => pc == CheckAt(p)
            case UnsubscribeFrom(slot) => pc == UnsubscribeAt(slot)
            case Await(_) => pc < SCRIPT_LENGTH
            case Succeed => pc >= SCRIPT_LENGTH
  {
  }

  /** Nothing but the place changes, and nothing becomes issuable again. */
  lemma PlaceMoveKeepsContexts(m: Mqtt, promises: Promises, place: Place, place': Place, m': Mqtt)
    requires ContextsOk(m, promises, place)
    requires m'.subscribes == m.subscribes && m'.publishes == m.publishes
    requires forall p :: MayIssue(place', p) ==> MayIssue(place, p)
    ensures ContextsOk(m', promises, place')
  {
  }

  lemma StoreKeepsContexts(s: State, p: Promise, token: int)
    requires StateContextsOk(s) && s.worker.place == Storing(p, token)
    ensures StateContextsOk(StoreContext(s, p, token))
  {
    if !p.Responded? {
      assert MayIssue(s.worker.place, p);
      TableMoves(Unlimited, s.mqtt.subscribes, Store(token, Notify(p)));
      TableMoves(s.limit, s.mqtt.publishes, Store(token, Notify(p)));
      forall q ensures MayIssue(Running(StoreAt(p) + 1), q) ==> MayIssue(s.worker.place, q) && q != p {
      }
    }
  }

  /** The worker moves on, falls into its catch block or ends: nothing becomes issuable again. */
  lemma QuietFollow(s: State, pc: nat, instruction: Instruction, submitted: Submitted, ok: bool)
    requires StateContextsOk(s) && s.worker.place == Running(pc) && instruction == InstructionAt(pc)
    ensures StateContextsOk(Follow(s, pc, instruction, submitted, ok))
  {
    WhichInstruction(pc);
    var s' := Follow(s, pc, instruction, submitted, ok);
    PlaceMoveKeepsContexts(s.mqtt, s.promises, s.worker.place, s'.worker.place, s'.mqtt);
  }

  /** What a step outside the script leaves alone. */
  lemma AroundMoves(s: State, submitted: Submitted, ok: bool)
    requires !s.worker.place.Running? && !s.worker.place.Storing?
    ensures var s' := Around(s, submitted, ok);
            && s'.promises == s.promises && s'.sentAt == s.sentAt && s'.keyring == s.keyring
               && s'.crashed == s.crashed && s'.owed == s.owed
            && s'.mqtt.publishes == s.mqtt.publishes && s'.mqtt.subscribes == s.mqtt.subscribes
            && (s'.trace == s.trace || s'.trace == s.trace + [Reported(Error)])
            && (s'.worker.place.Running? ==> s'.worker.place == Running(0)) && !s'.worker.place.Storing?
  {
  }

  lemma QuietWork(s: State, submitted: Submitted, ok: bool)
    requires StateContextsOk(s) && !s.worker.place.Running? && !s.worker.place.Storing?
    ensures StateContextsOk(Around(s, submitted, ok))
  {
    var s' := Around(s, submitted, ok);
    AroundMoves(s, submitted, ok);
    assert forall p :: MayIssue(s'.worker.place, p) ==> MayIssue(s.worker.place, p);
    PlaceMoveKeepsContexts(s.mqtt, s.promises, s.worker.place, s'.worker.place, s'.mqtt);
  }

  lemma WorkKeepsContexts(s: State, submitted: Submitted, ok: bool)
    requires StateContextsOk(s)
    ensures StateContextsOk(WorkerStep(s, submitted, ok))
  {
    if s.worker.place.Storing? {
      StoreKeepsContexts(s, s.worker.place.promise, s.worker.place.token);
      return;
    } else if !s.worker.place.Running? {
      QuietWork(s, submitted, ok);
      return;
    }
    QuietFollow(s, s.worker.place.pc, InstructionAt(s.worker.place.pc), submitted, ok);
  }

  /** Setting a promise that no context waits for any more. */
  lemma SetKeepsContexts(s: State, p: Promise, value: bool)
    requires StateContextsOk(s) && p !in s.promises.values && (MayIssue(s.worker.place, p) ==> p.Responded?)
    requires !Waiting(s.mqtt.subscribes, p) && !Waiting(s.mqtt.publishes, p)
    ensures StateContextsOk(Settle(s, p, value))
  {
  }

  lemma SubscribeCompletedKeepsContexts(s: State, token: int, granted: Granted)
    requires StateContextsOk(s)
    ensures StateContextsOk(CompleteSubscribe(s, token, granted))
  {
    var t := s.mqtt.subscribes;
    TableMoves(Unlimited, t, Complete(token, granted));
    var done := s.(mqtt := s.mqtt.(subscribes := ContextTable.Step(Unlimited, t, Complete(token, granted))));
    assert StateContextsOk(done);
    if token in t.entries && t.entries[token].ctx.Notify? {
      var p := t.entries[token].ctx.promise;
      assert Waiting(t, p) && !Waiting(s.mqtt.publishes, p);
      SetKeepsContexts(done, p, granted.result);
    }
  }

  lemma SendCompletedKeepsContexts(s: State, token: int, result: bool)
    requires StateContextsOk(s)
    ensures StateContextsOk(CompleteSend(s, token, result))
  {
    var t := s.mqtt.publishes;
    TableMoves(s.limit, t, Complete(token, result));
    var done := s.(mqtt := s.mqtt.(publishes := ContextTable.Step(s.limit, t, Complete(token, result))));
    assert StateContextsOk(done);
    if token in t.entries && t.entries[token].ctx.Notify? {
      var p := t.entries[token].ctx.promise;
      assert Waiting(t, p) && !Waiting(s.mqtt.subscribes, p);
      SetKeepsContexts(done, p, result);
    }
  }

  lemma AnswerKeepsContexts(s: State, p: Promise, granted: Granted)
    requires StateContextsOk(s)
    ensures StateContextsOk(Act(s, Answered(p, granted)))
  {
    if p in s.owed {
      var rest := s.(owed := s.owed - {p});
      if p.SubscribedTo? {
        SubscribeCompletedKeepsContexts(rest, s.owed[p], granted);
      } else {
        SendCompletedKeepsContexts(rest, s.owed[p], granted.result);
      }
    }
  }

  lemma HandleKeepsContexts(s: State, slot: Slot, m: Message)
    requires StateContextsOk(s)
    ensures StateContextsOk(Handle(s, slot, m))
  {
    var answer := Answer(slot, Read(slot, m));
    if answer.Some? {
      var p := Responded(answer.value.0);
      assert !Waiting(s.mqtt.subscribes, p) && !Waiting(s.mqtt.publishes, p);
      if p !in s.promises.values {
        SetKeepsContexts(Noted(s, slot, m), p, answer.value.1);
      }
    }
  }

  lemma StepKeepsContexts(s: State, a: Action)
    requires StateContextsOk(s)
    ensures StateContextsOk(Step(s, a))
  {
    match a
    case Work(submitted, ok) => WorkKeepsContexts(s, submitted, ok);
    case Answered(p, granted) => AnswerKeepsContexts(s, p, granted);
    case AnsweredEmpty(_) =>
    case SubscribeCompleted(token, granted) => SubscribeCompletedKeepsContexts(s, token, granted);
    case SendCompleted(token, result) => SendCompletedKeepsContexts(s, token, result);
    case SendConfirmed(token) => TableMoves(s.limit, s.mqtt.publishes, Confirm(token));
    case Arrive(slot, _, message) => HandleKeepsContexts(s, slot, message);
    case OtherSubscribe(token, _) => TableMoves(Unlimited, s.mqtt.subscribes, Store(token, Other));
    case OtherUnsubscribe(_) =>
    case OtherPublish(token) => TableMoves(s.limit, s.mqtt.publishes, Store(token, Other));
  }

  lemma {:induction false} ContextsReachable(topics: Topics, limit: Limit, actions: seq<Action>)
    ensures StateContextsOk(Run(Initial(topics, limit), actions))
  {
    if actions != [] {
      ContextsReachable(topics, limit, actions[..|actions| - 1]);
      StepKeepsContexts(Run(Initial(topics, limit), actions[..|actions| - 1]), actions[|actions| - 1]);
    }
  }

  /** Across both components, for every order of broker answers and every reuse of tokens: a
      context is erased with its callback, so no unguarded promise is ever set twice. */
  lemma NoPromiseIsSetTwice(topics: Topics, limit: Limit, actions: seq<Action>)
    ensures !Run(Initial(topics, limit), actions).promises.error
  {
    ContextsReachable(topics, limit, actions);
  }
}
