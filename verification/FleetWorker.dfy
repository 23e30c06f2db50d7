/** The provisioning object: its fields, the callbacks that set its promises and notes, its
    worker, one stretch between two waits at a time, and whole schedules of all of them. */
module FleetWorker {
  import opened Options
  import opened MqttService
  import opened TopicFilters
  import opened FleetProvisioning
  import opened FleetProtocol
  import opened FleetOutcome

  /** No promise was set twice; a finished run reported one outcome, or a second one after its
      teardown threw; success is reported exactly if it is marked, and means that every promise
      was kept. */
  ghost predicate WellRun(s: State) {
    && !s.promises.error
    && (s.worker.place.Finished? ==> (|s.worker.outcomes| == 1 <==> !s.worker.teardownFailed))
    && (s.worker.isProvisioned <==> |s.worker.outcomes| > 0 && s.worker.outcomes[0] == Provisioned)
    && (s.worker.isProvisioned ==> forall p :: IsTrue(s.promises, p))
  }

  lemma EveryRunIsWellRun(topics: Topics, limit: ContextTable.Limit, actions: seq<Action>)
    ensures WellRun(Run(Initial(topics, limit), actions))
  {
    NoPromiseIsSetTwice(topics, limit, actions);
    OneOutcome(topics, limit, actions);
  }

  class Provisioner {
    const topics: Topics
    const limit: ContextTable.Limit
    var mqtt: Mqtt // what the run keeps in the service it calls
    var promises: map<Promise, bool>
    var certificateId: string
    var token: string
    var place: Place
    var isProvisioned: bool
    var outcomes: seq<Outcome>
    var teardownFailed: bool
    var refused: Option<(nat, nat)>
    var owed: map<Promise, int>
    var crashed: bool
    ghost var settledAt: map<Promise, nat>
    ghost var error: bool
    ghost var keysFrom: Option<nat>
    ghost var sentAt: map<Request, nat>
    ghost var trace: seq<Event>

    ghost function View(): State reads this {
      State(topics, limit, mqtt, Promises(promises, settledAt, error),
            Keyring(certificateId, token, keysFrom),
            Worker(place, isProvisioned, outcomes, teardownFailed, refused), owed, crashed, sentAt, trace)
    }

    constructor (templateName: string, limit: ContextTable.Limit)
      ensures View() == Initial(TopicsFor(templateName), limit)
    {
      this.topics, this.limit := TopicsFor(templateName), limit;
      mqtt := Mqtt(ContextTable.Empty(), ContextTable.Empty(), map[]);
      promises, certificateId, token := map[], "", "";
      place, isProvisioned, outcomes, teardownFailed := Setup, false, [], false;
      refused, owed, crashed := None, map[], false;
      settledAt, error, keysFrom, sentAt, trace := map[], false, None, map[], [];
    }

    // ---- Promises ----

    /** Throws when the promise has a value. */
    method SetValue(p: Promise, value: bool) returns (thrown: bool)
      modifies this`promises, this`settledAt, this`trace
      ensures thrown <==> p in old(promises)
      ensures View() == OfferPromise(old(View()), p, value)
    {
      thrown := p in promises;
      if !thrown {
        promises := promises[p := value];
        settledAt := settledAt[p := |trace|];
        trace := trace + [Settled(p, value)];
      }
    }

    /** The subscribe and send callbacks do not catch: what they throw ends the process. */
    method OnCompleted(handler: Handler, value: bool)
      modifies this`promises, this`settledAt, this`trace, this`error, this`crashed
      ensures View() == CallBack(old(View()), handler, value)
    {
      if handler.Notify? {
        var thrown := SetValue(handler.promise, value);
        error := error || thrown;
        crashed := crashed || thrown;
      }
    }

    // ---- Message handlers ----

    /** Notes what the document gives, field by field, up to the first one missing. */
    method NoteKeys(m: Message) returns (thrown: bool)
      modifies this`certificateId, this`token, this`keysFrom, this`trace
      ensures thrown <==> Read(KeysAccepted, m).Thrown?
      ensures View() == Noted(old(View()), KeysAccepted, m)
    {
      ghost var now := |trace|;
      trace := trace + [Handled(KeysAccepted, Read(KeysAccepted, m))];
      thrown := true;
      if m.keys.None? || m.keys.value.certificateId.None? {
        return;
      }
      certificateId := m.keys.value.certificateId.value;
      if m.keys.value.certificatePem.None? || m.keys.value.privateKey.None? || m.keys.value.token.None? {
        return;
      }
      token := m.keys.value.token.value;
      if m.filesOpen {
        thrown := false;
        keysFrom := Some(now);
      }
    }

    method OnKeysAccepted(m: Message)
      modifies this`certificateId, this`token, this`keysFrom, this`promises, this`settledAt, this`trace, this`crashed
      ensures View() == Handle(old(View()), KeysAccepted, m)
    {
      var thrown := NoteKeys(m);
      if thrown {
        crashed := true;
      } else {
        var _ := SetValue(Responded(CreateKeys), true);
      }
    }

    method OnRegisterAccepted(m: Message)
      modifies this`promises, this`settledAt, this`trace, this`crashed
      ensures View() == Handle(old(View()), RegisterAccepted, m)
    {
      trace := trace + [Handled(RegisterAccepted, Read(RegisterAccepted, m))];
      if m.filesOpen && m.parsed {
        var _ := SetValue(Responded(RegisterThing), true);
      } else {
        crashed := true;
      }
    }

    /** Either of the two rejected topics. */
    method OnRejected(slot: Slot, m: Message)
      requires slot.KeysRejected? || slot.RegisterRejected?
      modifies this`promises, this`settledAt, this`trace, this`crashed
      ensures View() == Handle(old(View()), slot, m)
    {
      trace := trace + [Handled(slot, Read(slot, m))];
      if m.rejection.None? || m.rejection.value.statusCode.None? || m.rejection.value.errorCode.None?
         || m.rejection.value.errorMessage.None? {
        crashed := true;
      } else {
        var _ := SetValue(Responded(if slot.KeysRejected? then CreateKeys else RegisterThing), false);
      }
    }

    // ---- The worker ----

    /** A subscribe that the library refuses throws into the catch block. */
    method Subscribe(slot: Slot, submitted: Submitted)
      requires place.Running?
      modifies this`place, this`owed
      ensures View() == Follow(old(View()), old(place).pc, SubscribeTo(slot), submitted, true)
    {
      if submitted.Rejected? {
        place := Cancelling(place.pc, 0);
      } else {
        owed := owed[SubscribedTo(slot) := submitted.token];
        place := Storing(SubscribedTo(slot), submitted.token);
      }
    }

    /** The locked region of either call, in which an accepted request leaves its context. */
    method StoreAccepted()
      requires place.Storing?
      modifies this`place, this`mqtt
      ensures View() == StoreContext(old(View()), old(place).promise, old(place).token)
    {
      var p, token := place.promise, place.token;
      match p {
        case SubscribedTo(slot) =>
          var context := ContextTable.Store(token, Notify(p));
          mqtt := mqtt.(subscribes := ContextTable.Step(ContextTable.Unlimited, mqtt.subscribes, context),
                        handlers := mqtt.handlers[Topic(slot, topics) := OnMessage(slot)]);
          place := Running(SubscribeAt(slot) + 1);
        case SentOut(request) =>
          var context := ContextTable.Store(token, Notify(p));
          mqtt := mqtt.(publishes := ContextTable.Step(limit, mqtt.publishes, context));
          place := Running(SendAt(request) + 1);
        case Responded(_) =>
      }
    }

    /** The first request carries nothing, the second the certificate and the token. */
    ghost method NoteSent(request: Request)
      modifies this`sentAt, this`trace
      ensures sentAt == old(sentAt)[request := |old(trace)|]
      ensures trace == old(trace) + [SentEvent(View().keyring, request)]
    {
      sentAt := sentAt[request := |trace|];
      trace := trace + [if request == CreateKeys then Sent(request, "", "") else Sent(request, certificateId, token)];
    }

    /** A publish that the library refuses is lost without a word; only a missing client throws. */
    method Publish(request: Request, submitted: Submitted, created: bool)
      requires place.Running?
      modifies this`place, this`owed, this`sentAt, this`trace
      ensures View() == Follow(old(View()), old(place).pc, Send(request), submitted, created)
    {
      if !created {
        place := Cancelling(place.pc, 0);
        return;
      }
      if submitted.Rejected? {
        place := Running(place.pc + 1);
        return;
      }
      NoteSent(request);
      owed := owed[SentOut(request) := submitted.token];
      place := Storing(SentOut(request), submitted.token);
    }

    method Unsubscribe(slot: Slot, submitted: Submitted)
      requires place.Running?
      modifies this`place, this`mqtt
      ensures View() == Follow(old(View()), old(place).pc, UnsubscribeFrom(slot), submitted, true)
    {
      if submitted.Rejected? {
        place := Cancelling(place.pc, 0);
      } else {
        mqtt := mqtt.(handlers := mqtt.handlers - {Topic(slot, topics)});
        place := Running(place.pc + 1);
      }
    }

    /** One instruction of the script, or the second half of a call it made. */
    method MakeProvisioning(submitted: Submitted, ok: bool)
      requires place.Running? || place.Storing?
      modifies this`place, this`mqtt, this`owed, this`sentAt, this`trace, this`isProvisioned, this`outcomes
      ensures View() == WorkerStep(old(View()), submitted, ok)
    {
      if place.Storing? {
        StoreAccepted();
        return;
      }
      match InstructionAt(place.pc) {
        case SubscribeTo(slot) => Subscribe(slot, submitted);
        case Send(request) => Publish(request, submitted, ok);
        case UnsubscribeFrom(slot) => Unsubscribe(slot, submitted);
        case Await(p) =>
          if p in promises {
            place := Running(place.pc + 1);
          }
        case Check(p) =>
          place := if p in promises && promises[p] then Running(place.pc + 1) else Cancelling(place.pc, 0);
        case Succeed => OnProvisioned();
      }
    }

    method OnProvisioned()
      modifies this`place, this`trace, this`isProvisioned, this`outcomes
      ensures View() == Report(old(View()).(worker := old(View()).worker.(isProvisioned := true)), Provisioned,
                               Teardown)
    {
      isProvisioned := true;
      outcomes := outcomes + [Provisioned];
      trace := trace + [Reported(Provisioned)];
      place := Teardown;
    }

    /** The catch block of the script, one unsubscribe at a time. */
    method Cancel(submitted: Submitted)
      requires place.Cancelling?
      modifies this`place, this`mqtt, this`trace, this`outcomes, this`refused
      ensures forall ok :: View() == Around(old(View()), submitted, ok)
    {
      if place.k >= 4 {
        OnError(Finished);
      } else if submitted.Rejected? {
        refused := Some((place.reached, place.k));
        OnError(Finished);
      } else {
        mqtt := mqtt.(handlers := mqtt.handlers - {CancelTopic(topics, place.reached, CancelSlot(place.k))});
        place := Cancelling(place.reached, place.k + 1);
      }
    }

    method OnError(next: Place)
      modifies this`place, this`trace, this`outcomes
      ensures View() == Report(old(View()), Error, next)
    {
      outcomes := outcomes + [Error];
      trace := trace + [Reported(Error)];
      place := next;
    }

    /** The worker before and after the script, and its catch block. */
    method RunWorker(submitted: Submitted, ok: bool)
      requires !place.Running? && !place.Storing?
      modifies this`place, this`mqtt, this`trace, this`isProvisioned, this`outcomes, this`teardownFailed, this`refused
      ensures View() == WorkerStep(old(View()), submitted, ok)
    {
      match place {
        case Setup =>
          if ok {
            place := Connecting;
          } else {
            OnError(Finished);
          }
        case Connecting =>
          if ok {
            place := Running(0);
          } else {
            isProvisioned := false;
            OnError(Teardown);
          }
        case Cancelling(_, _) => Cancel(submitted);
        case Teardown =>
          if ok {
            place := Finished;
          } else {
            teardownFailed := true;
            OnError(Finished);
          }
        case _ =>
      }
    }

    // ---- Whole schedules ----

    /** A message on `topic` calls the handler of `slot` if that is the one registered. */
    method OnMessageArrived(slot: Slot, topic: string, m: Message)
      requires !crashed
      modifies this`certificateId, this`token, this`keysFrom, this`promises, this`settledAt, this`trace, this`crashed
      ensures View() == Step(old(View()), Arrive(slot, topic, m))
    {
      var filter := Topic(slot, topics);
      if filter == "" || filter !in mqtt.handlers || mqtt.handlers[filter] != OnMessage(slot) {
        return;
      }
      var hits := CountHits(filter, topic);
      if hits > 0 {
        match slot {
          case KeysAccepted => OnKeysAccepted(m);
          case RegisterAccepted => OnRegisterAccepted(m);
          case _ => OnRejected(slot, m);
        }
      }
    }

    method OnSubscribeCompleted(token: int, granted: Granted)
      modifies this`mqtt, this`promises, this`settledAt, this`trace, this`error, this`crashed
      ensures View() == CompleteSubscribe(old(View()), token, granted)
    {
      var t := mqtt.subscribes;
      mqtt := mqtt.(subscribes := ContextTable.Step(ContextTable.Unlimited, t, ContextTable.Complete(token, granted)));
      if token in t.entries {
        OnCompleted(t.entries[token].ctx, granted.result);
      }
    }

    method OnSendCompleted(token: int, result: bool)
      modifies this`mqtt, this`promises, this`settledAt, this`trace, this`error, this`crashed
      ensures View() == CompleteSend(old(View()), token, result)
    {
      var t := mqtt.publishes;
      mqtt := mqtt.(publishes := ContextTable.Step(limit, t, ContextTable.Complete(token, result)));
      if token in t.entries {
        OnCompleted(t.entries[token].ctx, result);
      }
    }

    /** The library answers a request of the run, once. */
    method OnAnswered(p: Promise, granted: Granted)
      requires !crashed
      modifies this`owed, this`mqtt, this`promises, this`settledAt, this`trace, this`error, this`crashed
      ensures View() == Step(old(View()), Answered(p, granted))
    {
      if p in owed {
        var token := owed[p];
        owed := owed - {p};
        if p.SubscribedTo? {
          OnSubscribeCompleted(token, granted);
        } else {
          OnSendCompleted(token, granted.result);
        }
      }
    }

    /** What other users of the service do to it, and confirmations of delivery. */
    method OnOthers(a: Action)
      requires !crashed && (a.SendConfirmed? || a.OtherSubscribe? || a.OtherUnsubscribe? || a.OtherPublish?)
      modifies this`mqtt
      ensures View() == Step(old(View()), a)
    {
      match a {
        case SendConfirmed(token) =>
          mqtt := mqtt.(publishes := ContextTable.Step(limit, mqtt.publishes, ContextTable.Confirm(token)));
        case OtherSubscribe(token, topic) =>
          mqtt := mqtt.(subscribes := ContextTable.Step(ContextTable.Unlimited, mqtt.subscribes,
                                                        ContextTable.Store(token, Other)),
                        handlers := mqtt.handlers[topic := Other]);
        case OtherUnsubscribe(topic) =>
          mqtt := mqtt.(handlers := mqtt.handlers - {topic});
        case OtherPublish(token) =>
          mqtt := mqtt.(publishes := ContextTable.Step(limit, mqtt.publishes, ContextTable.Store(token, Other)));
      }
    }

    method Perform(a: Action)
      modifies this
      ensures View() == Step(old(View()), a)
    {
      if crashed {
        return;
      }
      match a {
        case Work(submitted, ok) =>
          if place.Running? || place.Storing? {
            MakeProvisioning(submitted, ok);
          } else {
            RunWorker(submitted, ok);
          }
        case Answered(p, granted) => OnAnswered(p, granted);
        case AnsweredEmpty(p) => owed := owed - {p};
        case SubscribeCompleted(token, granted) => OnSubscribeCompleted(token, granted);
        case SendCompleted(token, result) => OnSendCompleted(token, result);
        case Arrive(slot, topic, message) => OnMessageArrived(slot, topic, message);
        case _ => OnOthers(a);
      }
    }

    /** A whole life of the object, from its construction, under any schedule of worker, broker
        and others, is a run of the protocol, and runs well. */
    method Execute(schedule: seq<Action>)
      modifies this
      ensures View() == Run(old(View()), schedule)
      ensures old(View()) == Initial(topics, limit) ==> WellRun(View())
    {
      ghost var start := View();
      for i := 0 to |schedule|
        invariant View() == Run(start, schedule[..i])
      {
        assert schedule[..i + 1][..i] == schedule[..i];
        Perform(schedule[i]);
      }
      assert schedule[..|schedule|] == schedule;
      EveryRunIsWellRun(topics, limit, schedule);
    }
  }
}
