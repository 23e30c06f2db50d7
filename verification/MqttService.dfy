/** The MQTT client service: calls that the library accepts leave a context behind, its
    asynchronous answers turn contexts into callbacks, and arriving messages are dispatched
    to the handlers of the subscribed filters. Every method is one region held under a
    mutex of the source; what the library answers is a parameter. */
module MqttService {
  import opened ContextTable
  import opened Options
  import opened TopicFilters

  /** Handlers are identities of type `H`: which function is called is all that matters. */
  datatype SubscribeContext<H> = SubscribeContext(topic: string, qos: int, onSubscribe: H)
  datatype UnsubscribeContext<H> = UnsubscribeContext(topic: string, onUnsubscribe: H)
  datatype PublishContext<H> = PublishContext(topic: string, qos: int, msg: string, onSend: H, onDelivery: H)

  /** Arguments of a subscribe callback besides the topic. */
  datatype Granted = Granted(qos: int, result: bool)

  /** What the library says to a request: a token for the answer to come, or an error code. */
  datatype Submitted = Accepted(token: int) | Rejected(code: int)

  /** The response of a completion, which may be null. */
  datatype Response = NullResponse | Response(token: int, qos: int)
  {
    function TokenOrZero(): int {
      if NullResponse? then 0 else token
    }
  }

  datatype MessageCall<H> = MessageCall(filter: string, handler: H, topic: string, msg: string)

  // ---- Dispatch, as a function of the handler map and its iteration order ----

  ghost predicate IterationOrder<H>(handlers: map<string, H>, order: seq<string>) {
    && (forall i, j :: 0 <= i < j < |order| ==> order[i] != order[j])
    && (forall f :: f in handlers <==> f in order)
  }

  function Repeat<T>(x: T, n: nat): (r: seq<T>)
    ensures |r| == n && forall i :: 0 <= i < n ==> r[i] == x
  {
    seq(n, _ => x)
  }

  function MessageCalls<H>(handlers: map<string, H>, order: seq<string>, topic: string, msg: string)
    : seq<MessageCall<H>>
    requires "" !in order && forall f :: f in order ==> f in handlers
  {
    if order == [] then []
    else
      var n := |order| - 1;
      var f := order[n];
      MessageCalls(handlers, order[..n], topic, msg)
      + Repeat(MessageCall(f, handlers[f], topic, msg), HitCount(f, topic))
  }

  lemma MessageCallsNext<H>(handlers: map<string, H>, order: seq<string>, topic: string, msg: string, i: nat)
    requires "" !in order && (forall f :: f in order ==> f in handlers) && i < |order|
    ensures MessageCalls(handlers, order[..i + 1], topic, msg) ==
            MessageCalls(handlers, order[..i], topic, msg)
            + Repeat(MessageCall(order[i], handlers[order[i]], topic, msg), HitCount(order[i], topic))
  {
    assert order[..i + 1][..i] == order[..i];
  }

  /** Number of calls made for one filter. */
  function CallsOfFilter<H>(calls: seq<MessageCall<H>>, filter: string): nat {
    if calls == [] then 0
    else CallsOfFilter(calls[..|calls| - 1], filter) + if calls[|calls| - 1].filter == filter then 1 else 0
  }

  lemma {:induction false} CallsOfRepeat<H>(calls: seq<MessageCall<H>>, c: MessageCall<H>, n: nat, filter: string)
    ensures CallsOfFilter(calls + Repeat(c, n), filter) ==
            CallsOfFilter(calls, filter) + if c.filter == filter then n else 0
  {
    var all := calls + Repeat(c, n);
    if n == 0 {
      assert all == calls;
    } else {
      CallsOfRepeat(calls, c, n - 1, filter);
      assert all[..|all| - 1] == calls + Repeat(c, n - 1);
    }
  }

  lemma LastOfOrder(order: seq<string>, filter: string)
    requires order != [] && forall i, j :: 0 <= i < j < |order| ==> order[i] != order[j]
    ensures var n := |order| - 1;
            && order[n] !in order[..n]
            && (filter in order <==> filter in order[..n] || filter == order[n])
  {
    assert order == order[..|order| - 1] + [order[|order| - 1]];
  }

  /** Whatever the iteration order, each filter of the map is called as often as it is hit,
      and no other filter is called. */
  lemma {:induction false} DispatchCount<H>(handlers: map<string, H>, order: seq<string>, topic: string, msg: string,
                                            filter: string)
    requires "" !in order && filter != ""
    requires forall f :: f in order ==> f in handlers
    requires forall i, j :: 0 <= i < j < |order| ==> order[i] != order[j]
    ensures CallsOfFilter(MessageCalls(handlers, order, topic, msg), filter) ==
            if filter in order then HitCount(filter, topic) else 0
  {
    if order != [] {
      var n := |order| - 1;
      var f, before := order[n], order[..n];
      LastOfOrder(order, filter);
      DispatchCount(handlers, before, topic, msg, filter);
      CallsOfRepeat(MessageCalls(handlers, before, topic, msg), MessageCall(f, handlers[f], topic, msg),
                    HitCount(f, topic), filter);
    }
  }

  /** Every call made is of a filter of the map, with that filter's own handler. */
  lemma {:induction false} DispatchHandlers<H>(handlers: map<string, H>, order: seq<string>, topic: string,
                                               msg: string, k: nat)
    requires "" !in order && forall f :: f in order ==> f in handlers
    requires k < |MessageCalls(handlers, order, topic, msg)|
    ensures var c := MessageCalls(handlers, order, topic, msg)[k];
            c.filter in order && c == MessageCall(c.filter, handlers[c.filter], topic, msg)
  {
    var n := |order| - 1;
    if k < |MessageCalls(handlers, order[..n], topic, msg)| {
      DispatchHandlers(handlers, order[..n], topic, msg, k);
    }
  }

  // ---- The handler map over a run of subscribes and unsubscribes ----

  datatype Operation<H> = Subscribed(topic: string, onMessage: H) | Unsubscribed(topic: string)

  function Handlers<H>(ops: seq<Operation<H>>): map<string, H> {
    if ops == [] then map[]
    else
      var before, op := Handlers(ops[..|ops| - 1]), ops[|ops| - 1];
      if op.Subscribed? then before[op.topic := op.onMessage] else before - {op.topic}
  }

  /** The last operation on `topic`, if there is one. */
  function LastOperation<H>(ops: seq<Operation<H>>, topic: string): (r: Option<Operation<H>>)
    ensures r.Some? ==> r.value.topic == topic
    ensures r.None? <==> forall k :: 0 <= k < |ops| ==> ops[k].topic != topic
  {
    if ops == [] then None
    else if ops[|ops| - 1].topic == topic then Some(ops[|ops| - 1])
    else LastOperation(ops[..|ops| - 1], topic)
  }

  lemma {:induction false} HandlersFollowLastOperation<H>(ops: seq<Operation<H>>, topic: string)
    ensures var last := LastOperation(ops, topic);
            if last.Some? && last.value.Subscribed?
            then topic in Handlers(ops) && Handlers(ops)[topic] == last.value.onMessage
            else topic !in Handlers(ops)
  {
    if ops != [] {
      HandlersFollowLastOperation(ops[..|ops| - 1], topic);
    }
  }

  /** The last operation on the filter is a subscribe, and the dispatcher takes it for a match. */
  predicate IsCalled<H>(ops: seq<Operation<H>>, filter: string, topic: string) {
    && Matches(filter, topic) && !HashParent(filter, topic) && !MixesWildcards(filter)
    && LastOperation(ops, filter).Some? && LastOperation(ops, filter).value.Subscribed?
  }

  /** After any run of subscribes and unsubscribes, a message on a wildcard-free topic calls
      exactly once the handler given by the last operation on each filter that is a subscribe
      and that the dispatcher takes for a match, and calls nothing else. */
  lemma MessageReachesSubscribers<H>(ops: seq<Operation<H>>, order: seq<string>, topic: string, msg: string,
                                     filter: string)
    requires WildcardFree(topic) && WellFormedFilter(filter)
    requires IterationOrder(Handlers(ops), order) && "" !in order
    ensures var calls := MessageCalls(Handlers(ops), order, topic, msg);
            && CallsOfFilter(calls, filter) == (if IsCalled(ops, filter, topic) then 1 else 0)
            && forall k :: 0 <= k < |calls| ==>
                 LastOperation(ops, calls[k].filter) == Some(Subscribed(calls[k].filter, calls[k].handler))
  {
    var handlers := Handlers(ops);
    var calls := MessageCalls(handlers, order, topic, msg);
    DispatchCount(handlers, order, topic, msg, filter);
    DispatchAgainstStandard(filter, topic);
    HandlersFollowLastOperation(ops, filter);
    forall k | 0 <= k < |calls|
      ensures LastOperation(ops, calls[k].filter) == Some(Subscribed(calls[k].filter, calls[k].handler))
    {
      DispatchHandlers(handlers, order, topic, msg, k);
      HandlersFollowLastOperation(ops, calls[k].filter);
    }
  }

  // ---- The service ----

  /** `size_t` against `int`: a negative buffer size becomes a huge unsigned number. */
  function BufferLimit(bufferSize: int): (limit: Limit)
    ensures limit.AtMost?
    ensures 0 <= bufferSize < 0x8000_0000 ==> limit.size == bufferSize
    ensures -0x8000_0000 <= bufferSize < 0 ==> limit.size >= 0xffff_ffff_8000_0000
  {
    AtMost(bufferSize % 0x1_0000_0000_0000_0000)
  }

  /** `size() > m_bufferSize` is false: as many entries as the buffer size still leave room for one
      more, and with a negative size there is room for any number that fits the memory. */
  predicate HasRoom(bufferSize: int, entries: nat)
    ensures 0 <= bufferSize < 0x8000_0000 ==> (HasRoom(bufferSize, entries) <==> entries <= bufferSize)
    ensures -0x8000_0000 <= bufferSize < 0 && entries < 0x8000_0000_0000_0000 ==> HasRoom(bufferSize, entries)
  {
    entries <= bufferSize % 0x1_0000_0000_0000_0000
  }

  // ---- What a schedule means for the handler map and for each table ----

  /** Something that happens to a service that has its client. */
  datatype Happening<H> =
    | CallSubscribe(topic: string, qos: int, onSubscribe: H, onMessage: H, submitted: Submitted)
    | CallUnsubscribe(topic: string, onUnsubscribe: H, submitted: Submitted)
    | CallPublish(topic: string, qos: int, msg: string, onSend: H, onDelivery: H, submitted: Submitted)
    | SubscribeAnswered(response: Response, success: bool)
    | UnsubscribeAnswered(response: Response, success: bool)
    | SendAnswered(response: Response, success: bool)
    | DeliveryConfirmed(token: int)

  function OperationOf<H>(h: Happening<H>): (r: seq<Operation<H>>)
    ensures |r| <= 1
  {
    match h
    case CallSubscribe(topic, _, _, onMessage, Accepted(_)) => [Subscribed(topic, onMessage)]
    case CallUnsubscribe(topic, _, Accepted(_)) => [Unsubscribed(topic)]
    case _ => []
  }

  function SubscribeEvent<H>(h: Happening<H>): (r: seq<Event<SubscribeContext<H>, Granted>>)
    ensures |r| <= 1
  {
    match h
    case CallSubscribe(topic, qos, onSubscribe, _, Accepted(token)) =>
      [Store(token, SubscribeContext(topic, qos, onSubscribe))]
    case SubscribeAnswered(response, success) =>
      [Complete(response.TokenOrZero(), Granted(if success && response.Response? then response.qos else 0, success))]
    case _ => []
  }

  function UnsubscribeEvent<H>(h: Happening<H>): (r: seq<Event<UnsubscribeContext<H>, bool>>)
    ensures |r| <= 1
  {
    match h
    case CallUnsubscribe(topic, onUnsubscribe, Accepted(token)) =>
      [Store(token, UnsubscribeContext(topic, onUnsubscribe))]
    case UnsubscribeAnswered(response, success) => [Complete(response.TokenOrZero(), success)]
    case _ => []
  }

  /** A send that succeeds without a response is no event. */
  function PublishEvent<H>(h: Happening<H>): (r: seq<Event<PublishContext<H>, bool>>)
    ensures |r| <= 1
  {
    match h
    case CallPublish(topic, qos, msg, onSend, onDelivery, Accepted(token)) =>
      [Store(token, PublishContext(topic, qos, msg, onSend, onDelivery))]
    case SendAnswered(response, success) =>
      if success && response.NullResponse? then [] else [Complete(response.TokenOrZero(), success)]
    case DeliveryConfirmed(token) => [Confirm(token)]
    case _ => []
  }

  /** The parts that each happening contributes, one after another. */
  function Gather<H, E>(schedule: seq<Happening<H>>, part: Happening<H> -> seq<E>): seq<E> {
    if schedule == [] then []
    else Gather(schedule[..|schedule| - 1], part) + part(schedule[|schedule| - 1])
  }

  lemma GatherLast<H, E>(schedule: seq<Happening<H>>, part: Happening<H> -> seq<E>)
    requires schedule != []
    ensures Gather(schedule, part) == Gather(schedule[..|schedule| - 1], part) + part(schedule[|schedule| - 1])
  {
  }

  /** A table after no event or one. */
  function After<C, R>(limit: Limit, t: Table<C, R>, events: seq<Event<C, R>>): Table<C, R>
    requires |events| <= 1
  {
    if events == [] then t else Step(limit, t, events[0])
  }

  lemma RunAfter<C, R>(limit: Limit, before: seq<Event<C, R>>, events: seq<Event<C, R>>)
    requires |events| <= 1
    ensures Run(limit, before + events) == After(limit, Run(limit, before), events)
  {
    if events == [] {
      assert before + events == before;
    } else {
      assert (before + events)[..|before|] == before;
    }
  }

  /** A handler map after no operation or one. */
  function Applied<H>(handlers: map<string, H>, ops: seq<Operation<H>>): map<string, H>
    requires |ops| <= 1
  {
    if ops == [] then handlers
    else if ops[0].Subscribed? then handlers[ops[0].topic := ops[0].onMessage]
    else handlers - {ops[0].topic}
  }

  lemma HandlersAfter<H>(before: seq<Operation<H>>, ops: seq<Operation<H>>)
    requires |ops| <= 1
    ensures Handlers(before + ops) == Applied(Handlers(before), ops)
  {
    if ops == [] {
      assert before + ops == before;
    } else {
      assert (before + ops)[..|before|] == before;
    }
  }

  // ---- The maps of the service over a schedule ----

  /** The handler map and the three tables. */
  datatype Maps<H> = Maps(
    handlers: map<string, H>,
    subscribes: Table<SubscribeContext<H>, Granted>,
    unsubscribes: Table<UnsubscribeContext<H>, bool>,
    publishes: Table<PublishContext<H>, bool>)

  function MapsAfter<H>(limit: Limit, m: Maps<H>, h: Happening<H>): Maps<H> {
    Maps(Applied(m.handlers, OperationOf(h)), After(Unlimited, m.subscribes, SubscribeEvent(h)),
         After(Unlimited, m.unsubscribes, UnsubscribeEvent(h)), After(limit, m.publishes, PublishEvent(h)))
  }

  function MapsRun<H>(limit: Limit, schedule: seq<Happening<H>>): Maps<H> {
    if schedule == [] then Maps(map[], Empty(), Empty(), Empty())
    else MapsAfter(limit, MapsRun(limit, schedule[..|schedule| - 1]), schedule[|schedule| - 1])
  }

  lemma {:induction false} HandlersOfSchedule<H>(limit: Limit, schedule: seq<Happening<H>>)
    ensures MapsRun(limit, schedule).handlers == Handlers(Gather(schedule, OperationOf))
  {
    if schedule != [] {
      var before, h := schedule[..|schedule| - 1], schedule[|schedule| - 1];
      HandlersOfSchedule(limit, before);
      HandlersAfter(Gather(before, OperationOf), OperationOf(h));
    }
  }

  lemma {:induction false} SubscribesOfSchedule<H>(limit: Limit, schedule: seq<Happening<H>>)
    ensures MapsRun(limit, schedule).subscribes == Run(Unlimited, Gather(schedule, SubscribeEvent))
  {
    if schedule != [] {
      var before, h := schedule[..|schedule| - 1], schedule[|schedule| - 1];
      SubscribesOfSchedule(limit, before);
      GatherLast(schedule, SubscribeEvent);
      RunAfter(Unlimited, Gather(before, SubscribeEvent), SubscribeEvent(h));
    }
  }

  lemma {:induction false} UnsubscribesOfSchedule<H>(limit: Limit, schedule: seq<Happening<H>>)
    ensures MapsRun(limit, schedule).unsubscribes == Run(Unlimited, Gather(schedule, UnsubscribeEvent))
  {
    if schedule != [] {
      var before, h := schedule[..|schedule| - 1], schedule[|schedule| - 1];
      UnsubscribesOfSchedule(limit, before);
      GatherLast(schedule, UnsubscribeEvent);
      RunAfter(Unlimited, Gather(before, UnsubscribeEvent), UnsubscribeEvent(h));
    }
  }

  lemma {:induction false} PublishesOfSchedule<H>(limit: Limit, schedule: seq<Happening<H>>)
    ensures MapsRun(limit, schedule).publishes == Run(limit, Gather(schedule, PublishEvent))
  {
    if schedule != [] {
      var before, h := schedule[..|schedule| - 1], schedule[|schedule| - 1];
      PublishesOfSchedule(limit, before);
      GatherLast(schedule, PublishEvent);
      RunAfter(limit, Gather(before, PublishEvent), PublishEvent(h));
    }
  }

  /** Each table is the run of its own events, and the handler map the outcome of the accepted
      subscribes and unsubscribes. */
  lemma MapsOfSchedule<H>(limit: Limit, schedule: seq<Happening<H>>)
    ensures MapsRun(limit, schedule) ==
            Maps(Handlers(Gather(schedule, OperationOf)), Run(Unlimited, Gather(schedule, SubscribeEvent)),
                 Run(Unlimited, Gather(schedule, UnsubscribeEvent)), Run(limit, Gather(schedule, PublishEvent)))
  {
    HandlersOfSchedule(limit, schedule);
    SubscribesOfSchedule(limit, schedule);
    UnsubscribesOfSchedule(limit, schedule);
    PublishesOfSchedule(limit, schedule);
  }

  /** Every accepted call has its fate, and the table is within its limit. */
  ghost predicate AllAccounted<C, R>(limit: Limit, events: seq<Event<C, R>>) {
    && (forall i :: 0 <= i < |events| && events[i].Store? ==> Accounted(limit, events, i, |events|))
    && (limit.AtMost? ==> |Run(limit, events).entries| <= limit.size + 1)
  }

  lemma TableAccounted<C, R>(limit: Limit, events: seq<Event<C, R>>)
    ensures AllAccounted(limit, events)
  {
    if limit.AtMost? {
      SizeBound(limit, events);
    }
    forall i | 0 <= i < |events| && events[i].Store? ensures Accounted(limit, events, i, |events|) {
      EveryCallAccounted(limit, events, i, |events|);
    }
  }

  class Service<H> {
    const bufferSize: int
    var created: bool
    var subscribeContextMap: map<int, Entry<SubscribeContext<H>>>
    var unsubscribeContextMap: map<int, Entry<UnsubscribeContext<H>>>
    var publishContextMap: map<int, Entry<PublishContext<H>>>
    var onMessageHndlMap: map<string, H>

    // Callbacks made so far, oldest first, and the count of events each map has seen.
    var subscribeCalls: seq<Callback<SubscribeContext<H>, Granted>>
    var unsubscribeCalls: seq<Callback<UnsubscribeContext<H>, bool>>
    var publishCalls: seq<Callback<PublishContext<H>, bool>>
    var messageCalls: seq<MessageCall<H>>
    var subscribeClock: nat
    var unsubscribeClock: nat
    var publishClock: nat

    ghost function Subscribes(): Table<SubscribeContext<H>, Granted> reads this {
      Table(subscribeClock, subscribeContextMap, subscribeCalls)
    }

    ghost function Unsubscribes(): Table<UnsubscribeContext<H>, bool> reads this {
      Table(unsubscribeClock, unsubscribeContextMap, unsubscribeCalls)
    }

    ghost function Publishes(): Table<PublishContext<H>, bool> reads this {
      Table(publishClock, publishContextMap, publishCalls)
    }

    ghost function View(): Maps<H> reads this {
      Maps(onMessageHndlMap, Subscribes(), Unsubscribes(), Publishes())
    }

    constructor (bufferSize: int)
      ensures this.bufferSize == bufferSize && !created && onMessageHndlMap == map[] && messageCalls == []
      ensures Subscribes() == Empty() && Unsubscribes() == Empty() && Publishes() == Empty()
      ensures View() == MapsRun(BufferLimit(bufferSize), [])
    {
      this.bufferSize := bufferSize;
      created := false;
      subscribeContextMap, unsubscribeContextMap, publishContextMap, onMessageHndlMap := map[], map[], map[], map[];
      subscribeCalls, unsubscribeCalls, publishCalls, messageCalls := [], [], [], [];
      subscribeClock, unsubscribeClock, publishClock := 0, 0, 0;
    }

    /** Fails when a client exists already, when the library cannot create one, and when it
        refuses the callbacks, but then the client is there to stay. */
    method Create(clientCreated: bool, callbacksSet: bool) returns (ok: bool)
      modifies this`created
      ensures ok <==> !old(created) && clientCreated && callbacksSet
      ensures created <==> old(created) || clientCreated
    {
      if created || !clientCreated {
        return false;
      }
      created := true;
      ok := callbacksSet;
    }

    /** Fails, as the source throws, without a client or when the library rejects the request. */
    method Subscribe(topic: string, qos: int, onSubscribe: H, onMessage: H, submitted: Submitted) returns (ok: bool)
      modifies this`subscribeContextMap, this`onMessageHndlMap, this`subscribeClock
      ensures ok <==> created && submitted.Accepted?
      ensures ok ==> Subscribes() == Step(Unlimited, old(Subscribes()),
                                          Store(submitted.token, SubscribeContext(topic, qos, onSubscribe)))
      ensures ok ==> onMessageHndlMap == old(onMessageHndlMap)[topic := onMessage]
      ensures !ok ==> Subscribes() == old(Subscribes()) && onMessageHndlMap == old(onMessageHndlMap)
    {
      if !created || submitted.Rejected? {
        return false;
      }
      var sc := SubscribeContext(topic, qos, onSubscribe);
      subscribeContextMap := subscribeContextMap[submitted.token := Entry(subscribeClock, sc)];
      onMessageHndlMap := onMessageHndlMap[topic := onMessage];
      subscribeClock := subscribeClock + 1;
      ok := true;
    }

    method Unsubscribe(topic: string, onUnsubscribe: H, submitted: Submitted) returns (ok: bool)
      modifies this`unsubscribeContextMap, this`onMessageHndlMap, this`unsubscribeClock
      ensures ok <==> created && submitted.Accepted?
      ensures ok ==> Unsubscribes() == Step(Unlimited, old(Unsubscribes()),
                                            Store(submitted.token, UnsubscribeContext(topic, onUnsubscribe)))
      ensures ok ==> onMessageHndlMap == old(onMessageHndlMap) - {topic}
      ensures !ok ==> Unsubscribes() == old(Unsubscribes()) && onMessageHndlMap == old(onMessageHndlMap)
    {
      if !created || submitted.Rejected? {
        return false;
      }
      onMessageHndlMap := onMessageHndlMap - {topic};
      var uc := UnsubscribeContext(topic, onUnsubscribe);
      unsubscribeContextMap := unsubscribeContextMap[submitted.token := Entry(unsubscribeClock, uc)];
      unsubscribeClock := unsubscribeClock + 1;
      ok := true;
    }

    /** A null response is looked up as token 0 with qos 0. */
    method OnSubscribe(response: Response)
      modifies this`subscribeContextMap, this`subscribeCalls, this`subscribeClock
      ensures var qos := if response.NullResponse? then 0 else response.qos;
              Subscribes() == Step(Unlimited, old(Subscribes()), Complete(response.TokenOrZero(), Granted(qos, true)))
    {
      var token, qos := 0, 0;
      if response.Response? {
        token, qos := response.token, response.qos;
      }
      if token in subscribeContextMap {
        var sc := subscribeContextMap[token];
        subscribeCalls := subscribeCalls + [Done(sc.id, sc.ctx, Granted(qos, true))];
        subscribeContextMap := subscribeContextMap - {token};
      }
      subscribeClock := subscribeClock + 1;
    }

    method OnSubscribeFailure(response: Response)
      modifies this`subscribeContextMap, this`subscribeCalls, this`subscribeClock
      ensures Subscribes() == Step(Unlimited, old(Subscribes()), Complete(response.TokenOrZero(), Granted(0, false)))
    {
      var token := 0;
      if response.Response? {
        token := response.token;
      }
      if token in subscribeContextMap {
        var sc := subscribeContextMap[token];
        subscribeCalls := subscribeCalls + [Done(sc.id, sc.ctx, Granted(0, false))];
        subscribeContextMap := subscribeContextMap - {token};
      }
      subscribeClock := subscribeClock + 1;
    }

    /** Success and failure of an unsubscribe differ in the reported result only. */
    method OnUnsubscribeDone(response: Response, result: bool)
      modifies this`unsubscribeContextMap, this`unsubscribeCalls, this`unsubscribeClock
      ensures Unsubscribes() == Step(Unlimited, old(Unsubscribes()), Complete(response.TokenOrZero(), result))
    {
      var token := 0;
      if response.Response? {
        token := response.token;
      }
      if token in unsubscribeContextMap {
        var uc := unsubscribeContextMap[token];
        unsubscribeCalls := unsubscribeCalls + [Done(uc.id, uc.ctx, result)];
        unsubscribeContextMap := unsubscribeContextMap - {token};
      }
      unsubscribeClock := unsubscribeClock + 1;
    }

    /** Fails without a client; a rejected message is dropped without a word to the caller. */
    method Publish(topic: string, qos: int, msg: string, onSend: H, onDelivery: H, submitted: Submitted)
        returns (ok: bool)
      modifies this`publishContextMap, this`publishClock
      ensures ok <==> created
      ensures ok && submitted.Accepted? && HasRoom(bufferSize, |old(publishContextMap)|) ==>
                && publishContextMap.Keys == old(publishContextMap).Keys + {submitted.token}
                && publishContextMap[submitted.token].ctx == PublishContext(topic, qos, msg, onSend, onDelivery)
                && forall k :: k in old(publishContextMap) && k != submitted.token ==>
                     publishContextMap[k] == old(publishContextMap)[k]
      ensures !(submitted.Accepted? && HasRoom(bufferSize, |old(publishContextMap)|)) ==>
                publishContextMap == old(publishContextMap)
      ensures ok && submitted.Accepted? ==>
                Publishes() == Step(BufferLimit(bufferSize), old(Publishes()),
                                    Store(submitted.token, PublishContext(topic, qos, msg, onSend, onDelivery)))
      ensures !ok || submitted.Rejected? ==> Publishes() == old(Publishes())
    {
      if !created {
        return false;
      }
      ok := true;
      if submitted.Accepted? {
        var pc := PublishContext(topic, qos, msg, onSend, onDelivery);
        if |publishContextMap| <= BufferLimit(bufferSize).size {
          publishContextMap := publishContextMap[submitted.token := Entry(publishClock, pc)];
        }
        publishClock := publishClock + 1;
      }
    }

    /** A success without a response is ignored altogether. */
    method OnSend(response: Response)
      modifies this`publishContextMap, this`publishCalls, this`publishClock
      ensures response.NullResponse? ==> Publishes() == old(Publishes())
      ensures response.Response? ==>
                Publishes() == Step(BufferLimit(bufferSize), old(Publishes()), Complete(response.token, true))
    {
      if response.Response? {
        if response.token in publishContextMap {
          var pc := publishContextMap[response.token];
          publishCalls := publishCalls + [Done(pc.id, pc.ctx, true)];
          publishContextMap := publishContextMap - {response.token};
        }
        publishClock := publishClock + 1;
      }
    }

    /** A failure without a response is looked up as token 0. */
    method OnSendFailure(response: Response)
      modifies this`publishContextMap, this`publishCalls, this`publishClock
      ensures Publishes() == Step(BufferLimit(bufferSize), old(Publishes()), Complete(response.TokenOrZero(), false))
    {
      var token := 0;
      if response.Response? {
        token := response.token;
      }
      if token in publishContextMap {
        var pc := publishContextMap[token];
        publishCalls := publishCalls + [Done(pc.id, pc.ctx, false)];
        publishContextMap := publishContextMap - {token};
      }
      publishClock := publishClock + 1;
    }

    method Delivered(token: int)
      modifies this`publishCalls, this`publishClock
      ensures Publishes() == Step(BufferLimit(bufferSize), old(Publishes()), Confirm(token))
    {
      if token in publishContextMap {
        var pc := publishContextMap[token];
        publishCalls := publishCalls + [Confirmed(pc.id, pc.ctx)];
      }
      publishClock := publishClock + 1;
    }

    /** The dispatch loop, for any order in which the map hands out its entries. An empty
        filter in the map would make the source read before the start of a string. */
    method MsgArrived(topic: string, msg: string, order: seq<string>) returns (handled: bool)
      requires IterationOrder(onMessageHndlMap, order) && "" !in onMessageHndlMap
      modifies this`messageCalls
      ensures messageCalls == old(messageCalls) + MessageCalls(onMessageHndlMap, order, topic, msg)
      ensures handled <==> messageCalls != old(messageCalls)
    {
      handled := false;
      ghost var made := [];
      for i := 0 to |order|
        invariant made == MessageCalls(onMessageHndlMap, order[..i], topic, msg)
        invariant messageCalls == old(messageCalls) + made
        invariant handled <==> made != []
      {
        var filter := order[i];
        var hits := CountHits(filter, topic);
        var calls := Repeat(MessageCall(filter, onMessageHndlMap[filter], topic, msg), hits);
        messageCalls := messageCalls + calls;
        handled := handled || hits > 0;
        MessageCallsNext(onMessageHndlMap, order, topic, msg, i);
        made := made + calls;
      }
      assert order[..|order|] == order;
    }

    method Perform(h: Happening<H>)
      requires created
      modifies this`subscribeContextMap, this`unsubscribeContextMap, this`publishContextMap, this`onMessageHndlMap,
        this`subscribeCalls, this`unsubscribeCalls, this`publishCalls, this`subscribeClock, this`unsubscribeClock,
          this`publishClock
      ensures View() == MapsAfter(BufferLimit(bufferSize), old(View()), h)
    {
      match h {
        case CallSubscribe(topic, qos, onSubscribe, onMessage, submitted) =>
          var ok := Subscribe(topic, qos, onSubscribe, onMessage, submitted);
        case CallUnsubscribe(topic, onUnsubscribe, submitted) =>
          var ok := Unsubscribe(topic, onUnsubscribe, submitted);
        case CallPublish(topic, qos, msg, onSend, onDelivery, submitted) =>
          var ok := Publish(topic, qos, msg, onSend, onDelivery, submitted);
        case SubscribeAnswered(response, success) =>
          if success {
            OnSubscribe(response);
          } else {
            OnSubscribeFailure(response);
          }
        case UnsubscribeAnswered(response, success) => OnUnsubscribeDone(response, success);
        case SendAnswered(response, success) =>
          if success {
            OnSend(response);
          } else {
            OnSendFailure(response);
          }
        case DeliveryConfirmed(token) => Delivered(token);
      }
    }

    /** A whole life of a service that got its client, whatever is called and answered; every
        accepted publish is accounted for. */
    method Execute(schedule: seq<Happening<H>>)
      requires created && View() == MapsRun(BufferLimit(bufferSize), [])
      modifies this`subscribeContextMap, this`unsubscribeContextMap, this`publishContextMap, this`onMessageHndlMap,
        this`subscribeCalls, this`unsubscribeCalls, this`publishCalls, this`subscribeClock, this`unsubscribeClock,
          this`publishClock
      ensures View() == MapsRun(BufferLimit(bufferSize), schedule)
      ensures onMessageHndlMap == Handlers(Gather(schedule, OperationOf))
      ensures Publishes() == Run(BufferLimit(bufferSize), Gather(schedule, PublishEvent))
      ensures AllAccounted(BufferLimit(bufferSize), Gather(schedule, PublishEvent))
    {
      for i := 0 to |schedule|
        invariant View() == MapsRun(BufferLimit(bufferSize), schedule[..i])
      {
        assert schedule[..i + 1][..i] == schedule[..i];
        Perform(schedule[i]);
      }
      assert schedule[..|schedule|] == schedule;
      MapsOfSchedule(BufferLimit(bufferSize), schedule);
      TableAccounted(BufferLimit(bufferSize), Gather(schedule, PublishEvent));
    }

    /** A message that arrives after any such life calls exactly once the handler of each
        well-formed filter that was last subscribed and that the dispatcher takes for a match. */
    method Receive(ghost schedule: seq<Happening<H>>, topic: string, msg: string, order: seq<string>)
        returns (handled: bool)
      requires View() == MapsRun(BufferLimit(bufferSize), schedule) && WildcardFree(topic)
      requires IterationOrder(onMessageHndlMap, order) && "" !in onMessageHndlMap
      modifies this`messageCalls
      ensures messageCalls == old(messageCalls) + MessageCalls(onMessageHndlMap, order, topic, msg)
      ensures forall filter :: WellFormedFilter(filter) ==>
                CallsOfFilter(MessageCalls(onMessageHndlMap, order, topic, msg), filter) ==
                if IsCalled(Gather(schedule, OperationOf), filter, topic) then 1 else 0
    {
      MapsOfSchedule(BufferLimit(bufferSize), schedule);
      handled := MsgArrived(topic, msg, order);
      forall filter | WellFormedFilter(filter)
        ensures CallsOfFilter(MessageCalls(onMessageHndlMap, order, topic, msg), filter) ==
                if IsCalled(Gather(schedule, OperationOf), filter, topic) then 1 else 0
      {
        MessageReachesSubscribers(Gather(schedule, OperationOf), order, topic, msg, filter);
      }
    }
  }

  // ---- Publishing, over whole runs ----

  /** Every accepted publish, for every run and every buffer size: refused at the limit,
      pending, overwritten by reuse of its token, or completed by exactly one send callback
      with its own topic and qos and no delivery callback after it; the map stays within the
      limit. */
  lemma PublishesAccounted<H>(bufferSize: int, events: seq<Event<PublishContext<H>, bool>>, i: nat)
    requires i < |events| && events[i].Store?
    ensures var limit := BufferLimit(bufferSize);
            && Accounted(limit, events, i, |events|)
            && |Run(limit, events).entries| <= limit.size + 1
  {
    EveryCallAccounted(BufferLimit(bufferSize), events, i, |events|);
    SizeBound(BufferLimit(bufferSize), events);
  }
}
