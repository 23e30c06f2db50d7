/** What every provisioning run guarantees, whatever the broker does: RegisterThing comes only
    after everything it rests on, the first response decides, and one outcome is reported. */
module FleetProtocol {
  import opened Options
  import opened MqttService
  import opened FleetProvisioning

  // ---- The invariant ----

  ghost predicate SettledOk(promises: Promises, trace: seq<Event>) {
    forall p :: p in promises.values ==>
      && p in promises.settledAt && promises.settledAt[p] < |trace|
      && trace[promises.settledAt[p]] == Settled(p, promises.values[p])
  }

  predicate IsTrue(promises: Promises, p: Promise) {
    p in promises.values && promises.values[p]
  }

  /** How far the worker is in its script. */
  function Reached(place: Place): nat {
    match place
    case Running(pc) => pc
    case Storing(p, _) => StoreAt(p)
    case _ => 0
  }

  /** Behind the worker lie only promises that were kept. */
  ghost predicate CheckedOk(place: Place, promises: Promises) {
    forall p :: CheckAt(p) < Reached(place) ==> IsTrue(promises, p)
  }

  /** A context stored for a publish belongs to a publish that was made. */
  predicate StoringOk(place: Place, sentAt: map<Request, nat>) {
    place.Storing? && place.promise.SentOut? ==> place.promise.request in sentAt
  }

  /** `p` was set to true before event `n`. */
  predicate KeptBefore(promises: Promises, p: Promise, n: nat) {
    IsTrue(promises, p) && p in promises.settledAt && promises.settledAt[p] < n
  }

  ghost predicate SentTraced(sentAt: map<Request, nat>, trace: seq<Event>) {
    forall r :: r in sentAt ==> sentAt[r] < |trace| && trace[sentAt[r]].Sent? && trace[sentAt[r]].request == r
  }

  /** A confirmation comes after its publish, and the first publish after its confirmed subscriptions. */
  ghost predicate SentOk(m: Mqtt, promises: Promises, sentAt: map<Request, nat>) {
    && (forall r :: Waiting(m.publishes, SentOut(r)) ==> r in sentAt)
    && (forall r :: SentOut(r) in promises.values ==>
          r in sentAt && SentOut(r) in promises.settledAt && sentAt[r] < promises.settledAt[SentOut(r)])
    && (CreateKeys in sentAt ==>
          && KeptBefore(promises, SubscribedTo(KeysAccepted), sentAt[CreateKeys])
          && KeptBefore(promises, SubscribedTo(KeysRejected), sentAt[CreateKeys]))
  }

  predicate Answers(e: Event, r: Request) {
    e.Handled? && Answer(e.slot, e.body).Some? && Answer(e.slot, e.body).value.0 == r
  }

  /** The event before `n` is the first message that answers request `r`, with the given verdict. */
  ghost predicate FirstAnswer(trace: seq<Event>, r: Request, n: nat, verdict: bool) {
    && 0 < n <= |trace| && Answers(trace[n - 1], r) && Answer(trace[n - 1].slot, trace[n - 1].body).value.1 == verdict
    && forall k :: 0 <= k < n - 1 ==> !Answers(trace[k], r)
  }

  ghost predicate ResponsesOk(promises: Promises, trace: seq<Event>) {
    forall r {:trigger Responded(r)} ::
      if Responded(r) in promises.values
      then Responded(r) in promises.settledAt &&
           FirstAnswer(trace, r, promises.settledAt[Responded(r)], promises.values[Responded(r)])
      else forall k :: 0 <= k < |trace| ==> !Answers(trace[k], r)
  }

  /** A message that gave a certificate and a token, its three files written. */
  predicate GivesKeys(e: Event) {
    e.Handled? && e.slot == KeysAccepted && e.body.Keys?
  }

  /** Token and certificate are those of the latest message that gave both. */
  ghost predicate KeyringOk(k: Keyring, trace: seq<Event>) {
    match k.from
    case None => forall i :: 0 <= i < |trace| ==> !GivesKeys(trace[i])
    case Some(n) =>
      && n < |trace| && GivesKeys(trace[n]) && trace[n].body == Keys(k.certificateId, k.token)
      && forall i :: n < i < |trace| ==> !GivesKeys(trace[i])
  }

  ghost predicate ProtocolOk(s: State) {
    && SettledOk(s.promises, s.trace)
    && CheckedOk(s.worker.place, s.promises)
    && StoringOk(s.worker.place, s.sentAt)
    && SentTraced(s.sentAt, s.trace)
    && SentOk(s.mqtt, s.promises, s.sentAt)
    && ResponsesOk(s.promises, s.trace)
    && (!s.crashed ==> KeyringOk(s.keyring, s.trace))
  }

  // ---- One event at a time ----

  /** An event that is no message and no settlement of a response. */
  predicate Plain(e: Event) {
    !e.Handled? && !(e.Settled? && e.promise.Responded?)
  }

  lemma PlainEventKeeps(s: State, e: Event)
    requires ProtocolOk(s) && Plain(e)
    ensures var trace := s.trace + [e];
            SettledOk(s.promises, trace) && SentTraced(s.sentAt, trace)
            && ResponsesOk(s.promises, trace) && (!s.crashed ==> KeyringOk(s.keyring, trace))
  {
    SettledGrows(s.promises, s.trace, e);
    SentGrows(s.sentAt, s.trace, e);
    ResponsesGrow(s.promises, s.trace, e);
    if !s.crashed {
      KeyringGrows(s.keyring, s.trace, e);
    }
  }

  lemma SettledGrows(promises: Promises, trace: seq<Event>, e: Event)
    requires SettledOk(promises, trace)
    ensures SettledOk(promises, trace + [e])
  {
  }

  lemma SentGrows(sentAt: map<Request, nat>, trace: seq<Event>, e: Event)
    requires SentTraced(sentAt, trace)
    ensures SentTraced(sentAt, trace + [e])
  {
  }

  lemma FirstAnswerStays(trace: seq<Event>, e: Event, r: Request, n: nat, verdict: bool)
    requires FirstAnswer(trace, r, n, verdict)
    ensures FirstAnswer(trace + [e], r, n, verdict)
  {
  }

  lemma ResponsesGrow(promises: Promises, trace: seq<Event>, e: Event)
    requires ResponsesOk(promises, trace) && !e.Handled?
    ensures ResponsesOk(promises, trace + [e])
  {
    forall r {:trigger Responded(r)} ensures
      if Responded(r) in promises.values
      then Responded(r) in promises.settledAt &&
           FirstAnswer(trace + [e], r, promises.settledAt[Responded(r)], promises.values[Responded(r)])
      else forall k :: 0 <= k < |trace + [e]| ==> !Answers((trace + [e])[k], r)
    {
      if Responded(r) in promises.values {
        FirstAnswerStays(trace, e, r, promises.settledAt[Responded(r)], promises.values[Responded(r)]);
      }
    }
  }

  lemma KeyringGrows(k: Keyring, trace: seq<Event>, e: Event)
    requires KeyringOk(k, trace) && !GivesKeys(e)
    ensures KeyringOk(k, trace + [e])
  {
  }

  // ---- Settling ----

  /** Promises after `p` got its value at event `n`. */
  function WithValue(promises: Promises, p: Promise, value: bool, n: nat): Promises {
    Promises(promises.values[p := value], promises.settledAt[p := n], promises.error)
  }

  lemma SettledWith(promises: Promises, trace: seq<Event>, p: Promise, value: bool)
    requires SettledOk(promises, trace) && p !in promises.values
    ensures SettledOk(WithValue(promises, p, value, |trace|), trace + [Settled(p, value)])
  {
  }

  lemma SentWith(m: Mqtt, promises: Promises, sentAt: map<Request, nat>, p: Promise, value: bool, n: nat)
    requires SentOk(m, promises, sentAt) && p !in promises.values
    requires p.SentOut? ==> p.request in sentAt && sentAt[p.request] < n
    ensures SentOk(m, WithValue(promises, p, value, n), sentAt)
  {
  }

  lemma ResponsesWith(promises: Promises, trace: seq<Event>, p: Promise, value: bool)
    requires ResponsesOk(promises, trace) && !p.Responded?
    ensures ResponsesOk(WithValue(promises, p, value, |trace|), trace + [Settled(p, value)])
  {
    ResponsesGrow(promises, trace, Settled(p, value));
  }

  /** A promise that is no response gets its value. */
  lemma SettleKeeps(s: State, p: Promise, value: bool)
    requires ProtocolOk(s) && p !in s.promises.values && !p.Responded?
    requires p.SentOut? ==> p.request in s.sentAt
    ensures ProtocolOk(Settle(s, p, value))
  {
    SettledWith(s.promises, s.trace, p, value);
    SentGrows(s.sentAt, s.trace, Settled(p, value));
    SentWith(s.mqtt, s.promises, s.sentAt, p, value, |s.trace|);
    ResponsesWith(s.promises, s.trace, p, value);
    if !s.crashed {
      KeyringGrows(s.keyring, s.trace, Settled(p, value));
    }
    CheckedWith(s.worker.place, s.promises, p, value, |s.trace|);
  }

  lemma CheckedWith(place: Place, promises: Promises, p: Promise, value: bool, n: nat)
    requires CheckedOk(place, promises) && p !in promises.values
    ensures CheckedOk(place, WithValue(promises, p, value, n))
  {
  }

  /** A message arrives: the keyring notes it, and the first answer settles its response, unless
      the handler throws. */
  lemma HandleKeeps(s: State, slot: Slot, m: Message)
    requires ProtocolOk(s) && !s.crashed
    ensures ProtocolOk(Handle(s, slot, m))
  {
    var answer := Answer(slot, Read(slot, m));
    if answer.Some? && Responded(answer.value.0) !in s.promises.values {
      AnswerKeeps(s, slot, m, answer.value.0, answer.value.1);
    } else {
      var e := Handled(slot, Read(slot, m));
      SettledGrows(s.promises, s.trace, e);
      SentGrows(s.sentAt, s.trace, e);
      if answer.Some? {
        NoteKeeps(s.keyring, s.trace, slot, m);
      }
      MessageKeepsResponses(s.promises, s.trace, slot, Read(slot, m));
    }
  }

  lemma AnswerKeeps(s: State, slot: Slot, m: Message, r: Request, verdict: bool)
    requires ProtocolOk(s) && !s.crashed && Answer(slot, Read(slot, m)) == Some((r, verdict))
             && Responded(r) !in s.promises.values
    ensures ProtocolOk(Settle(Noted(s, slot, m), Responded(r), verdict))
  {
    var e, p := Handled(slot, Read(slot, m)), Responded(r);
    SettledByAnswer(s.promises, s.trace, e, p, verdict);
    SentGrows(s.sentAt, s.trace, e);
    SentGrows(s.sentAt, s.trace + [e], Settled(p, verdict));
    SentWith(s.mqtt, s.promises, s.sentAt, p, verdict, |s.trace| + 1);
    NotedByAnswer(s.keyring, s.trace, slot, m, Settled(p, verdict));
    CheckedWith(s.worker.place, s.promises, p, verdict, |s.trace| + 1);
    AnswerSettles(s.promises, s.trace, slot, Read(slot, m), r, verdict);
  }

  lemma SettledByAnswer(promises: Promises, trace: seq<Event>, e: Event, p: Promise, value: bool)
    requires SettledOk(promises, trace) && p !in promises.values
    ensures SettledOk(WithValue(promises, p, value, |trace + [e]|), trace + [e] + [Settled(p, value)])
  {
    SettledGrows(promises, trace, e);
    SettledWith(promises, trace + [e], p, value);
  }

  lemma NotedByAnswer(k: Keyring, trace: seq<Event>, slot: Slot, m: Message, last: Event)
    requires KeyringOk(k, trace) && !GivesKeys(last) && !Read(slot, m).Thrown?
    ensures KeyringOk(Note(k, slot, m, |trace|), trace + [Handled(slot, Read(slot, m))] + [last])
  {
    NoteKeeps(k, trace, slot, m);
    KeyringGrows(Note(k, slot, m, |trace|), trace + [Handled(slot, Read(slot, m))], last);
  }

  lemma NoteKeeps(k: Keyring, trace: seq<Event>, slot: Slot, m: Message)
    requires KeyringOk(k, trace) && !Read(slot, m).Thrown?
    ensures KeyringOk(Note(k, slot, m, |trace|), trace + [Handled(slot, Read(slot, m))])
  {
    if slot != KeysAccepted {
      KeyringGrows(k, trace, Handled(slot, Read(slot, m)));
    }
  }

  /** A message that answers nothing, or nothing new. */
  lemma MessageKeepsResponses(promises: Promises, trace: seq<Event>, slot: Slot, body: Body)
    requires ResponsesOk(promises, trace)
    requires Answer(slot, body).Some? ==> Responded(Answer(slot, body).value.0) in promises.values
    ensures ResponsesOk(promises, trace + [Handled(slot, body)])
  {
    var e := Handled(slot, body);
    forall r {:trigger Responded(r)} ensures
      if Responded(r) in promises.values
      then Responded(r) in promises.settledAt &&
           FirstAnswer(trace + [e], r, promises.settledAt[Responded(r)], promises.values[Responded(r)])
      else forall k :: 0 <= k < |trace + [e]| ==> !Answers((trace + [e])[k], r)
    {
      if Responded(r) in promises.values {
        FirstAnswerStays(trace, e, r, promises.settledAt[Responded(r)], promises.values[Responded(r)]);
      }
    }
  }

  lemma AnswerSettles(promises: Promises, trace: seq<Event>, slot: Slot, body: Body, r: Request, verdict: bool)
    requires ResponsesOk(promises, trace)
    requires Answer(slot, body) == Some((r, verdict)) && Responded(r) !in promises.values
    ensures var longer := trace + [Handled(slot, body)];
            ResponsesOk(WithValue(promises, Responded(r), verdict, |longer|), longer + [Settled(Responded(r), verdict)])
  {
    var e, last := Handled(slot, body), Settled(Responded(r), verdict);
    var all := trace + [e] + [last];
    var after := WithValue(promises, Responded(r), verdict, |trace| + 1);
    assert FirstAnswer(all, r, |trace| + 1, verdict);
    forall q {:trigger Responded(q)} ensures
      if Responded(q) in after.values
      then Responded(q) in after.settledAt &&
           FirstAnswer(all, q, after.settledAt[Responded(q)], after.values[Responded(q)])
      else forall k :: 0 <= k < |all| ==> !Answers(all[k], q)
    {
      if q != r && Responded(q) in promises.values {
        var i, v := promises.settledAt[Responded(q)], promises.values[Responded(q)];
        FirstAnswerStays(trace, e, q, i, v);
        FirstAnswerStays(trace + [e], last, q, i, v);
      }
    }
  }

  // ---- The worker ----

  /** The next instruction is behind the worker once it was followed. */
  lemma CheckedNext(pc: nat, promises: Promises)
    requires CheckedOk(Running(pc), promises)
    requires InstructionAt(pc).Check? ==> IsTrue(promises, InstructionAt(pc).promise)
    ensures CheckedOk(Running(pc + 1), promises)
  {
    forall p | CheckAt(p) < pc + 1 ensures IsTrue(promises, p) {
      if CheckAt(p) == pc {
        assert InstructionAt(CheckAt(p)) == Check(p);
      }
    }
  }

  /** The library accepts the publish. */
  lemma SentEventKeeps(s: State, request: Request)
    requires ProtocolOk(s) && StateContextsOk(s) && s.worker.place == Running(SendAt(request))
    ensures ProtocolOk(s.(sentAt := s.sentAt[request := |s.trace|], trace := s.trace + [SentEvent(s.keyring, request)]))
  {
    PlainEventKeeps(s, SentEvent(s.keyring, request));
    assert MayIssue(s.worker.place, SentOut(request));
    if request == CreateKeys {
      KeysTopicsConfirmed(s.promises, s.trace);
    }
    SentNext(s.mqtt, s.promises, s.sentAt, |s.trace|, request);
  }

  lemma SendMoves(s: State, request: Request, token: int)
    requires s.worker.place == Running(SendAt(request))
    ensures Follow(s, SendAt(request), Send(request), Accepted(token), true) ==
            s.(worker := s.worker.(place := Storing(SentOut(request), token)),
               owed := s.owed[SentOut(request) := token],
               sentAt := s.sentAt[request := |s.trace|], trace := s.trace + [SentEvent(s.keyring, request)])
  {
  }

  lemma SendKeeps(s: State, request: Request, token: int)
    requires ProtocolOk(s) && StateContextsOk(s) && s.worker.place == Running(SendAt(request))
    ensures ProtocolOk(Follow(s, SendAt(request), Send(request), Accepted(token), true))
  {
    SentEventKeeps(s, request);
    SendMoves(s, request, token);
    var sent := s.(sentAt := s.sentAt[request := |s.trace|], trace := s.trace + [SentEvent(s.keyring, request)]);
    PlaceMoveKeeps(sent, sent.(worker := s.worker.(place := Storing(SentOut(request), token)),
                               owed := s.owed[SentOut(request) := token]));
  }

  /** The worker moves, to a place that is no further than its promises allow. */
  lemma PlaceMoveKeeps(s: State, s': State)
    requires ProtocolOk(s) && s' == s.(worker := s'.worker, owed := s'.owed)
    requires CheckedOk(s'.worker.place, s.promises) && StoringOk(s'.worker.place, s.sentAt)
    ensures ProtocolOk(s')
  {
  }

  lemma KeysTopicsConfirmed(promises: Promises, trace: seq<Event>)
    requires SettledOk(promises, trace) && CheckedOk(Running(SendAt(CreateKeys)), promises)
    ensures KeptBefore(promises, SubscribedTo(KeysAccepted), |trace|)
            && KeptBefore(promises, SubscribedTo(KeysRejected), |trace|)
  {
    assert CheckAt(SubscribedTo(KeysAccepted)) < 6 && CheckAt(SubscribedTo(KeysRejected)) < 6;
  }

  lemma SentNext(m: Mqtt, promises: Promises, sentAt: map<Request, nat>, n: nat, request: Request)
    requires SentOk(m, promises, sentAt) && SentOut(request) !in promises.values
    requires request == CreateKeys ==>
               && KeptBefore(promises, SubscribedTo(KeysAccepted), n)
               && KeptBefore(promises, SubscribedTo(KeysRejected), n)
    ensures SentOk(m, promises, sentAt[request := n])
  {
  }

  /** Only tables and handlers change, and none but a publish that was made starts to wait. */
  lemma TableChangeKeeps(s: State, s': State)
    requires ProtocolOk(s) && s' == s.(mqtt := s'.mqtt)
    requires forall r :: Waiting(s'.mqtt.publishes, SentOut(r)) ==>
             Waiting(s.mqtt.publishes, SentOut(r)) || r in s.sentAt
    ensures ProtocolOk(s')
  {
  }

  /** The context of a request that was accepted is stored. */
  lemma StoreKeeps(s: State, p: Promise, token: int)
    requires ProtocolOk(s) && StateContextsOk(s) && s.worker.place == Storing(p, token)
    ensures ProtocolOk(StoreContext(s, p, token))
  {
    if !p.Responded? {
      StoreFrame(s, p, token);
      StoresAre(p);
      CheckedNext(StoreAt(p), s.promises);
      StoredKeeps(s, StoreContext(s, p, token), p);
    }
  }

  lemma StoreFrame(s: State, p: Promise, token: int)
    requires StateContextsOk(s) && s.worker.place == Storing(p, token) && !p.Responded?
    ensures var s' := StoreContext(s, p, token);
            && s' == s.(worker := s'.worker, mqtt := s'.mqtt) && s'.worker.place == Running(StoreAt(p) + 1)
            && forall r :: Waiting(s'.mqtt.publishes, SentOut(r)) ==>
               Waiting(s.mqtt.publishes, SentOut(r)) || p == SentOut(r)
  {
    assert MayIssue(s.worker.place, p);
    TableMoves(s.limit, s.mqtt.publishes, ContextTable.Store(token, Notify(p)));
  }

  lemma StoredKeeps(s: State, s': State, p: Promise)
    requires ProtocolOk(s) && s.worker.place.Storing? && s.worker.place.promise == p
    requires s' == s.(worker := s'.worker, mqtt := s'.mqtt) && CheckedOk(s'.worker.place, s.promises)
    requires s'.worker.place == Running(StoreAt(p) + 1)
    requires forall r :: Waiting(s'.mqtt.publishes, SentOut(r)) ==>
             Waiting(s.mqtt.publishes, SentOut(r)) || p == SentOut(r)
    ensures ProtocolOk(s')
  {
    var stored := s.(mqtt := s'.mqtt);
    TableChangeKeeps(s, stored);
    PlaceMoveKeeps(stored, s');
  }

  lemma StoresAre(p: Promise)
    requires !p.Responded?
    ensures InstructionAt(StoreAt(p)).SubscribeTo? || InstructionAt(StoreAt(p)).Send?
  {
  }

  /** A step of the worker that makes no publish. */
  lemma QuietKeeps(s: State, s': State, outcome: Outcome)
    requires ProtocolOk(s) && CheckedOk(s'.worker.place, s.promises) && StoringOk(s'.worker.place, s.sentAt)
    requires s'.promises == s.promises && s'.sentAt == s.sentAt && s'.keyring == s.keyring && s'.crashed == s.crashed
    requires s'.mqtt.publishes == s.mqtt.publishes
    requires s'.trace == s.trace || s'.trace == s.trace + [Reported(outcome)]
    ensures ProtocolOk(s')
  {
    PlainEventKeeps(s, Reported(outcome));
  }

  /** What an instruction other than an accepted publish leaves alone, and where it leads. */
  lemma FollowMoves(s: State, pc: nat, instruction: Instruction, submitted: Submitted, ok: bool)
    requires s.worker.place == Running(pc) && instruction == InstructionAt(pc)
    requires !(instruction.Send? && submitted.Accepted? && ok)
    ensures var s' := Follow(s, pc, instruction, submitted, ok);
            && s'.promises == s.promises && s'.sentAt == s.sentAt && s'.keyring == s.keyring
            && s'.crashed == s.crashed && s'.mqtt.publishes == s.mqtt.publishes
            && (s'.trace == s.trace || s'.trace == s.trace + [Reported(Provisioned)])
            && (s'.worker.place.Storing? ==> s'.worker.place.promise.SubscribedTo?)
            && (|| Reached(s'.worker.place) <= pc
                || (&& s'.worker.place == Running(pc + 1)
                    && (instruction.Check? ==> IsTrue(s.promises, instruction.promise))))
  {
    WhichInstruction(pc);
  }

  lemma FollowKeeps(s: State, pc: nat, instruction: Instruction, submitted: Submitted, ok: bool)
    requires ProtocolOk(s) && s.worker.place == Running(pc) && instruction == InstructionAt(pc)
    requires !(instruction.Send? && submitted.Accepted? && ok)
    ensures ProtocolOk(Follow(s, pc, instruction, submitted, ok))
  {
    FollowMoves(s, pc, instruction, submitted, ok);
    MovedKeeps(s, Follow(s, pc, instruction, submitted, ok), pc);
  }

  lemma MovedKeeps(s: State, s': State, pc: nat)
    requires ProtocolOk(s) && s.worker.place == Running(pc)
    requires s'.promises == s.promises && s'.sentAt == s.sentAt && s'.keyring == s.keyring
    requires s'.crashed == s.crashed && s'.mqtt.publishes == s.mqtt.publishes
    requires s'.trace == s.trace || s'.trace == s.trace + [Reported(Provisioned)]
    requires s'.worker.place.Storing? ==> s'.worker.place.promise.SubscribedTo?
    requires || Reached(s'.worker.place) <= pc
             || (s'.worker.place == Running(pc + 1)
                 && (InstructionAt(pc).Check? ==> IsTrue(s.promises, InstructionAt(pc).promise)))
    ensures ProtocolOk(s')
  {
    if Reached(s'.worker.place) > pc {
      CheckedNext(pc, s.promises);
    }
    QuietKeeps(s, s', Provisioned);
  }

  lemma AroundKeeps(s: State, submitted: Submitted, ok: bool)
    requires ProtocolOk(s) && !s.worker.place.Running? && !s.worker.place.Storing?
    ensures ProtocolOk(Around(s, submitted, ok))
  {
    AroundMoves(s, submitted, ok);
    QuietKeeps(s, Around(s, submitted, ok), Error);
  }

  lemma WorkKeeps(s: State, submitted: Submitted, ok: bool)
    requires ProtocolOk(s) && StateContextsOk(s)
    ensures ProtocolOk(WorkerStep(s, submitted, ok))
  {
    if s.worker.place.Storing? {
      StoreKeeps(s, s.worker.place.promise, s.worker.place.token);
      return;
    } else if !s.worker.place.Running? {
      AroundKeeps(s, submitted, ok);
      return;
    }
    var pc, instruction := s.worker.place.pc, InstructionAt(s.worker.place.pc);
    if instruction.Send? && submitted.Accepted? && ok {
      WhichInstruction(pc);
      SendKeeps(s, instruction.request, submitted.token);
    } else {
      FollowKeeps(s, pc, instruction, submitted, ok);
    }
  }

  // ---- The broker and the others ----

  /** The callback of a context that was in one of the tables. */
  lemma CallBackKeeps(s: State, done: State, handler: Handler, value: bool)
    requires ProtocolOk(s) && StateContextsOk(s) && done == s.(mqtt := done.mqtt)
    requires forall r :: Waiting(done.mqtt.publishes, SentOut(r)) ==> Waiting(s.mqtt.publishes, SentOut(r))
    requires handler.Notify? ==>
               Waiting(s.mqtt.subscribes, handler.promise) || Waiting(s.mqtt.publishes, handler.promise)
    ensures ProtocolOk(CallBack(done, handler, value))
  {
    TableChangeKeeps(s, done);
    if handler.Notify? {
      SettleKeeps(done, handler.promise, value);
    }
  }

  /** Only a publish of the run itself adds a wait. */
  lemma PublishesShrink(limit: ContextTable.Limit, t: ContextTable.Table<Handler, bool>,
                        e: ContextTable.Event<Handler, bool>)
    requires Single(t) && (e.Store? ==> e.ctx == Other)
    ensures forall r :: Waiting(ContextTable.Step(limit, t, e), SentOut(r)) ==> Waiting(t, SentOut(r))
  {
    TableMoves(limit, t, e);
  }

  lemma SubscribeCompletedKeeps(s: State, token: int, granted: Granted)
    requires ProtocolOk(s) && StateContextsOk(s)
    ensures ProtocolOk(CompleteSubscribe(s, token, granted))
  {
    var t := s.mqtt.subscribes;
    var e := ContextTable.Complete(token, granted);
    var done := s.(mqtt := s.mqtt.(subscribes := ContextTable.Step(ContextTable.Unlimited, t, e)));
    var handler := if token in t.entries then t.entries[token].ctx else Other;
    assert handler.Notify? ==> Waiting(t, handler.promise);
    CallBackKeeps(s, done, handler, granted.result);
    assert CompleteSubscribe(s, token, granted) == CallBack(done, handler, granted.result);
  }

  lemma SendCompletedKeeps(s: State, token: int, result: bool)
    requires ProtocolOk(s) && StateContextsOk(s)
    ensures ProtocolOk(CompleteSend(s, token, result))
  {
    var t := s.mqtt.publishes;
    var e := ContextTable.Complete(token, result);
    PublishesShrink(s.limit, t, e);
    SendCompletedCalls(s, token, result);
    var handler := if token in t.entries then t.entries[token].ctx else Other;
    assert handler.Notify? ==> Waiting(t, handler.promise);
    CallBackKeeps(s, s.(mqtt := s.mqtt.(publishes := ContextTable.Step(s.limit, t, e))), handler, result);
  }

  lemma SendCompletedCalls(s: State, token: int, result: bool)
    ensures var t := s.mqtt.publishes;
            CompleteSend(s, token, result) ==
            CallBack(s.(mqtt := s.mqtt.(publishes :=
                                          ContextTable.Step(s.limit, t, ContextTable.Complete(token, result)))),
                     if token in t.entries then t.entries[token].ctx else Other, result)
  {
  }

  lemma AnsweredKeeps(s: State, p: Promise, granted: Granted)
    requires ProtocolOk(s) && StateContextsOk(s)
    ensures ProtocolOk(Act(s, Answered(p, granted)))
  {
    if p in s.owed {
      var rest := s.(owed := s.owed - {p});
      if p.SubscribedTo? {
        SubscribeCompletedKeeps(rest, s.owed[p], granted);
      } else {
        SendCompletedKeeps(rest, s.owed[p], granted.result);
      }
    }
  }

  lemma ArriveKeeps(s: State, slot: Slot, topic: string, m: Message)
    requires ProtocolOk(s) && !s.crashed
    ensures ProtocolOk(Act(s, Arrive(slot, topic, m)))
  {
    HandleKeeps(s, slot, m);
    assert Act(s, Arrive(slot, topic, m)) in {s, Handle(s, slot, m)};
  }

  /** Confirmations and the calls of others. */
  lemma OthersKeep(s: State, a: Action)
    requires ProtocolOk(s) && StateContextsOk(s)
    requires a.SendConfirmed? || a.OtherPublish? || a.OtherSubscribe? || a.OtherUnsubscribe?
    ensures ProtocolOk(Act(s, a))
  {
    if a.SendConfirmed? {
      PublishesShrink(s.limit, s.mqtt.publishes, ContextTable.Confirm(a.token));
    } else if a.OtherPublish? {
      PublishesShrink(s.limit, s.mqtt.publishes, ContextTable.Store(a.token, Other));
    }
    TableChangeKeeps(s, Act(s, a));
  }

  lemma ActKeepsProtocol(s: State, a: Action)
    requires ProtocolOk(s) && StateContextsOk(s) && !s.crashed
    ensures ProtocolOk(Act(s, a))
  {
    match a
    case Work(submitted, ok) => WorkKeeps(s, submitted, ok);
    case Arrive(slot, topic, message) => ArriveKeeps(s, slot, topic, message);
    case Answered(p, granted) => AnsweredKeeps(s, p, granted);
    case AnsweredEmpty(p) => PlaceMoveKeeps(s, s.(owed := s.owed - {p}));
    case SubscribeCompleted(token, granted) => SubscribeCompletedKeeps(s, token, granted);
    case SendCompleted(token, result) => SendCompletedKeeps(s, token, result);
    case _ => OthersKeep(s, a);
  }

  lemma StepKeepsProtocol(s: State, a: Action)
    requires ProtocolOk(s) && StateContextsOk(s)
    ensures ProtocolOk(Step(s, a))
  {
    if !s.crashed {
      ActKeepsProtocol(s, a);
    }
  }

  lemma {:induction false} ProtocolReachable(topics: Topics, limit: ContextTable.Limit, actions: seq<Action>)
    ensures var s := Run(Initial(topics, limit), actions); ProtocolOk(s) && StateContextsOk(s)
  {
    ContextsReachable(topics, limit, actions);
    if actions != [] {
      ProtocolReachable(topics, limit, actions[..|actions| - 1]);
      StepKeepsProtocol(Run(Initial(topics, limit), actions[..|actions| - 1]), actions[|actions| - 1]);
    }
  }
}
