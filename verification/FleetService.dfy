/** Provisioning as a user of the MQTT service: the tables and handlers of every run are those of
    the service after some schedule of calls and answers. */
module FleetService {
  import opened MqttService
  import opened FleetProvisioning

  // ---- What an action means for the service ----

  function SubscribeCall(topic: string, token: int, onSubscribe: Handler, onMessage: Handler): Happening<Handler> {
    CallSubscribe(topic, 1, onSubscribe, onMessage, Accepted(token))
  }

  function PublishCall(token: int, onSend: Handler): Happening<Handler> {
    CallPublish("", 1, "", onSend, Other, Accepted(token))
  }

  function UnsubscribeCall(topic: string): Happening<Handler> {
    CallUnsubscribe(topic, Other, Accepted(0))
  }

  function StoreHappens(s: State, p: Promise, token: int): seq<Happening<Handler>> {
    match p
    case SubscribedTo(slot) => [SubscribeCall(Topic(slot, s.topics), token, Notify(p), OnMessage(slot))]
    case SentOut(_) => [PublishCall(token, Notify(p))]
    case Responded(_) => []
  }

  /** Most instructions of the worker leave the service alone. */
  function WorkHappens(s: State, submitted: Submitted): seq<Happening<Handler>> {
    match s.worker.place
    case Storing(p, token) => StoreHappens(s, p, token)
    case Running(pc) =>
      if InstructionAt(pc).UnsubscribeFrom? && submitted.Accepted?
      then [UnsubscribeCall(Topic(InstructionAt(pc).slot, s.topics))] else []
    case Cancelling(reached, k) =>
      if Unsubscribes(s.worker, submitted) then [UnsubscribeCall(CancelTopic(s.topics, reached, CancelSlot(k)))] else []
    case _ => []
  }

  function Happens(s: State, a: Action): seq<Happening<Handler>> {
    match a
    case Work(submitted, _) => WorkHappens(s, submitted)
    case Answered(p, granted) =>
      if p !in s.owed then []
      else if p.SubscribedTo? then [SubscribeAnswered(Response(s.owed[p], granted.qos), granted.result)]
      else [SendAnswered(Response(s.owed[p], 0), granted.result)]
    case SubscribeCompleted(token, granted) => [SubscribeAnswered(Response(token, granted.qos), granted.result)]
    case SendCompleted(token, result) => [SendAnswered(Response(token, 0), result)]
    case SendConfirmed(token) => [DeliveryConfirmed(token)]
    case OtherSubscribe(token, topic) => [SubscribeCall(topic, token, Other, Other)]
    case OtherUnsubscribe(topic) => [UnsubscribeCall(topic)]
    case OtherPublish(token) => [PublishCall(token, Other)]
    case _ => []
  }

  /** The schedule of a run, from its start. */
  function ScheduleOf(s: State, actions: seq<Action>): seq<Happening<Handler>> {
    if actions == [] then []
    else
      var before, a := actions[..|actions| - 1], actions[|actions| - 1];
      ScheduleOf(s, before) + if Run(s, before).crashed then [] else Happens(Run(s, before), a)
  }

  // ---- Agreement ----

  /** The same tokens are taken, each by a context that calls the same handler. */
  ghost predicate SameSubscribes(m: Maps<Handler>, q: Mqtt) {
    && m.subscribes.entries.Keys == q.subscribes.entries.Keys
    && forall k :: k in q.subscribes.entries ==> m.subscribes.entries[k].ctx.onSubscribe == q.subscribes.entries[k].ctx
  }

  ghost predicate SamePublishes(m: Maps<Handler>, q: Mqtt) {
    && m.publishes.entries.Keys == q.publishes.entries.Keys
    && forall k :: k in q.publishes.entries ==> m.publishes.entries[k].ctx.onSend == q.publishes.entries[k].ctx
  }

  ghost predicate Agrees(m: Maps<Handler>, q: Mqtt) {
    m.handlers == q.handlers && SameSubscribes(m, q) && SamePublishes(m, q)
  }

  lemma SameSize<C, D>(m: map<int, C>, n: map<int, D>)
    requires m.Keys == n.Keys
    ensures |m| == |n|
  {
    assert |m| == |m.Keys| && |n| == |n.Keys|;
  }

  /** A full table of the service is a full table of the run. */
  lemma SameRefusal(limit: ContextTable.Limit, m: Maps<Handler>, q: Mqtt)
    requires SamePublishes(m, q)
    ensures ContextTable.Refuses(limit, m.publishes) <==> ContextTable.Refuses(limit, q.publishes)
  {
    SameSize(m.publishes.entries, q.publishes.entries);
  }

  // ---- One happening at a time ----

  lemma SubscribeAgrees(limit: ContextTable.Limit, m: Maps<Handler>, q: Mqtt, topic: string, token: int,
                        onSubscribe: Handler, onMessage: Handler)
    requires Agrees(m, q)
    ensures Agrees(MapsAfter(limit, m, SubscribeCall(topic, token, onSubscribe, onMessage)),
                   q.(subscribes := ContextTable.Step(ContextTable.Unlimited, q.subscribes,
                                                      ContextTable.Store(token, onSubscribe)),
                      handlers := q.handlers[topic := onMessage]))
  {
  }

  lemma PublishAgrees(limit: ContextTable.Limit, m: Maps<Handler>, q: Mqtt, token: int, onSend: Handler)
    requires Agrees(m, q)
    ensures Agrees(MapsAfter(limit, m, PublishCall(token, onSend)),
                   q.(publishes := ContextTable.Step(limit, q.publishes, ContextTable.Store(token, onSend))))
  {
    SameRefusal(limit, m, q);
  }

  lemma UnsubscribeAgrees(limit: ContextTable.Limit, m: Maps<Handler>, q: Mqtt, topic: string)
    requires Agrees(m, q)
    ensures Agrees(MapsAfter(limit, m, UnsubscribeCall(topic)), q.(handlers := q.handlers - {topic}))
  {
  }

  lemma SubscribeAnswerAgrees(limit: ContextTable.Limit, m: Maps<Handler>, q: Mqtt, token: int, granted: Granted)
    requires Agrees(m, q)
    ensures Agrees(MapsAfter(limit, m, SubscribeAnswered(Response(token, granted.qos), granted.result)),
                   q.(subscribes := ContextTable.Step(ContextTable.Unlimited, q.subscribes,
                                                      ContextTable.Complete(token, granted))))
  {
  }

  lemma SendAnswerAgrees(limit: ContextTable.Limit, m: Maps<Handler>, q: Mqtt, token: int, result: bool)
    requires Agrees(m, q)
    ensures Agrees(MapsAfter(limit, m, SendAnswered(Response(token, 0), result)),
                   q.(publishes := ContextTable.Step(limit, q.publishes, ContextTable.Complete(token, result))))
  {
  }

  lemma ConfirmationAgrees(limit: ContextTable.Limit, m: Maps<Handler>, q: Mqtt, token: int)
    requires Agrees(m, q)
    ensures Agrees(MapsAfter(limit, m, DeliveryConfirmed(token)),
                   q.(publishes := ContextTable.Step(limit, q.publishes, ContextTable.Confirm(token))))
  {
  }

  // ---- One action at a time ----

  function AfterAtMostOne(limit: ContextTable.Limit, m: Maps<Handler>, hs: seq<Happening<Handler>>): Maps<Handler>
    requires |hs| <= 1
  {
    if hs == [] then m else MapsAfter(limit, m, hs[0])
  }

  lemma StoreAgrees(s: State, m: Maps<Handler>, p: Promise, token: int)
    requires Agrees(m, s.mqtt)
    ensures Agrees(AfterAtMostOne(s.limit, m, StoreHappens(s, p, token)), StoreContext(s, p, token).mqtt)
  {
    match p
    case SubscribedTo(slot) =>
      SubscribeAgrees(s.limit, m, s.mqtt, Topic(slot, s.topics), token, Notify(p), OnMessage(slot));
    case SentOut(_) => PublishAgrees(s.limit, m, s.mqtt, token, Notify(p));
    case Responded(_) =>
  }

  lemma FollowAgrees(s: State, m: Maps<Handler>, submitted: Submitted, ok: bool)
    requires Agrees(m, s.mqtt) && s.worker.place.Running?
    ensures Agrees(AfterAtMostOne(s.limit, m, WorkHappens(s, submitted)), WorkerStep(s, submitted, ok).mqtt)
  {
    var i := InstructionAt(s.worker.place.pc);
    if i.UnsubscribeFrom? && submitted.Accepted? {
      UnsubscribeAgrees(s.limit, m, s.mqtt, Topic(i.slot, s.topics));
    }
  }

  lemma WorkAgrees(s: State, m: Maps<Handler>, submitted: Submitted, ok: bool)
    requires Agrees(m, s.mqtt)
    ensures Agrees(AfterAtMostOne(s.limit, m, WorkHappens(s, submitted)), WorkerStep(s, submitted, ok).mqtt)
  {
    match s.worker.place
    case Running(_) => FollowAgrees(s, m, submitted, ok);
    case Storing(p, token) => StoreAgrees(s, m, p, token);
    case Cancelling(reached, k) =>
      UnsubscribeAgrees(s.limit, m, s.mqtt, CancelTopic(s.topics, reached, CancelSlot(k)));
    case _ =>
  }

  lemma CompletionsMove(s: State, token: int, granted: Granted, result: bool)
    ensures CompleteSubscribe(s, token, granted).mqtt ==
            s.mqtt.(subscribes := ContextTable.Step(ContextTable.Unlimited, s.mqtt.subscribes,
                                                    ContextTable.Complete(token, granted)))
    ensures CompleteSend(s, token, result).mqtt ==
            s.mqtt.(publishes := ContextTable.Step(s.limit, s.mqtt.publishes, ContextTable.Complete(token, result)))
  {
  }

  lemma OwnAnswerAgrees(s: State, m: Maps<Handler>, p: Promise, granted: Granted)
    requires Agrees(m, s.mqtt) && p in s.owed
    ensures Agrees(AfterAtMostOne(s.limit, m, Happens(s, Answered(p, granted))), Act(s, Answered(p, granted)).mqtt)
  {
    CompletionsMove(s.(owed := s.owed - {p}), s.owed[p], granted, granted.result);
    if p.SubscribedTo? {
      SubscribeAnswerAgrees(s.limit, m, s.mqtt, s.owed[p], granted);
    } else {
      SendAnswerAgrees(s.limit, m, s.mqtt, s.owed[p], granted.result);
    }
  }

  lemma StrangersAnswerAgrees(s: State, m: Maps<Handler>, a: Action)
    requires Agrees(m, s.mqtt) && (a.SubscribeCompleted? || a.SendCompleted?)
    ensures Agrees(AfterAtMostOne(s.limit, m, Happens(s, a)), Act(s, a).mqtt)
  {
    if a.SubscribeCompleted? {
      CompletionsMove(s, a.token, a.granted, true);
      SubscribeAnswerAgrees(s.limit, m, s.mqtt, a.token, a.granted);
    } else {
      CompletionsMove(s, a.token, Granted(0, true), a.result);
      SendAnswerAgrees(s.limit, m, s.mqtt, a.token, a.result);
    }
  }

  lemma MessageAgrees(s: State, slot: Slot, topic: string, m: Message)
    ensures Act(s, Arrive(slot, topic, m)).mqtt == s.mqtt
  {
  }

  lemma ActAgrees(s: State, m: Maps<Handler>, a: Action)
    requires Agrees(m, s.mqtt)
    ensures Agrees(AfterAtMostOne(s.limit, m, Happens(s, a)), Act(s, a).mqtt)
  {
    match a
    case Work(submitted, ok) => WorkAgrees(s, m, submitted, ok);
    case Answered(p, granted) =>
      if p in s.owed {
        OwnAnswerAgrees(s, m, p, granted);
      }
    case SubscribeCompleted(_, _) => StrangersAnswerAgrees(s, m, a);
    case SendCompleted(_, _) => StrangersAnswerAgrees(s, m, a);
    case SendConfirmed(token) => ConfirmationAgrees(s.limit, m, s.mqtt, token);
    case OtherSubscribe(token, topic) => SubscribeAgrees(s.limit, m, s.mqtt, topic, token, Other, Other);
    case OtherUnsubscribe(topic) => UnsubscribeAgrees(s.limit, m, s.mqtt, topic);
    case OtherPublish(token) => PublishAgrees(s.limit, m, s.mqtt, token, Other);
    case Arrive(slot, topic, message) => MessageAgrees(s, slot, topic, message);
    case AnsweredEmpty(_) =>
  }

  lemma MapsRunAfter(limit: ContextTable.Limit, before: seq<Happening<Handler>>, hs: seq<Happening<Handler>>)
    requires |hs| <= 1
    ensures MapsRun(limit, before + hs) == AfterAtMostOne(limit, MapsRun(limit, before), hs)
  {
    if hs == [] {
      assert before + hs == before;
    } else {
      assert (before + hs)[..|before|] == before;
    }
  }

  lemma LimitStays(s: State, a: Action)
    ensures Step(s, a).limit == s.limit
  {
  }

  /** Main: whatever the worker, the library and the other users do, the tables and handlers that
      provisioning works with are those of the MQTT service after the schedule of the run. */
  lemma {:induction false} RunIsASchedule(topics: Topics, limit: ContextTable.Limit, actions: seq<Action>)
    ensures var s := Run(Initial(topics, limit), actions);
            s.limit == limit && Agrees(MapsRun(limit, ScheduleOf(Initial(topics, limit), actions)), s.mqtt)
  {
    var start := Initial(topics, limit);
    if actions != [] {
      var before, a := actions[..|actions| - 1], actions[|actions| - 1];
      RunIsASchedule(topics, limit, before);
      var s, schedule := Run(start, before), ScheduleOf(start, before);
      LimitStays(s, a);
      if s.crashed {
        assert schedule + [] == schedule;
      } else {
        MapsRunAfter(limit, schedule, Happens(s, a));
        ActAgrees(s, MapsRun(limit, schedule), a);
      }
    }
  }
}
