/** What RegisterThing rests on, in every provisioning run. */
module FleetRegistration {
  import opened MqttService
  import opened FleetProvisioning
  import opened FleetProtocol

  /** The events that justify a publish of RegisterThing. */
  datatype Evidence = Evidence(
    keysAccepted: nat,      // subscriptions to the topics of the first exchange
    keysRejected: nat,
    keysSent: nat,          // CreateKeys handed to the library, then confirmed as sent
    keysConfirmed: nat,
    keysAnswered: nat,      // its response settled, by the message just before
    registerAccepted: nat,  // subscriptions to the topics of the second exchange
    registerRejected: nat,
    keysFrom: nat)          // the message that gave both the certificate and the token

  predicate Happened(trace: seq<Event>, i: nat, e: Event, before: nat) {
    i < before <= |trace| && trace[i] == e
  }

  ghost predicate KeysExchanged(trace: seq<Event>, n: nat, ev: Evidence) {
    && n <= |trace|
    && ev.keysConfirmed < n
    && Happened(trace, ev.keysAccepted, Settled(SubscribedTo(KeysAccepted), true), ev.keysSent)
    && Happened(trace, ev.keysRejected, Settled(SubscribedTo(KeysRejected), true), ev.keysSent)
    && ev.keysSent < ev.keysConfirmed && trace[ev.keysSent].Sent? && trace[ev.keysSent].request == CreateKeys
    && Happened(trace, ev.keysConfirmed, Settled(SentOut(CreateKeys), true), n)
    // the first response to it was an acceptance whose three files were written
    && Happened(trace, ev.keysAnswered, Settled(Responded(CreateKeys), true), n)
    && ev.keysAnswered > 0
    && trace[ev.keysAnswered - 1].Handled? && trace[ev.keysAnswered - 1].slot == KeysAccepted
    && trace[ev.keysAnswered - 1].body.Keys?
    && (forall k :: 0 <= k < ev.keysAnswered - 1 ==> !Answers(trace[k], CreateKeys))
  }

  /** Both strings come from one message, the latest before `n` that gave keys: the one that
      settled the response, or a later one. */
  ghost predicate Carries(trace: seq<Event>, n: nat, ev: Evidence, certificateId: string, token: string) {
    && n <= |trace| && ev.keysAnswered <= ev.keysFrom + 1 <= n
    && GivesKeys(trace[ev.keysFrom]) && trace[ev.keysFrom].body == Keys(certificateId, token)
    && forall i :: ev.keysFrom < i < n ==> !GivesKeys(trace[i])
  }

  ghost predicate Justifies(trace: seq<Event>, n: nat, ev: Evidence) {
    && n < |trace| && trace[n].Sent?
    && KeysExchanged(trace, n, ev)
    && Happened(trace, ev.registerAccepted, Settled(SubscribedTo(RegisterAccepted), true), n)
    && Happened(trace, ev.registerRejected, Settled(SubscribedTo(RegisterRejected), true), n)
    && Carries(trace, n, ev, trace[n].certificateId, trace[n].token)
  }

  /** Every promise checked before `request` is sent was kept. */
  lemma KeptAt(s: State, p: Promise)
    requires ProtocolOk(s) && s.worker.place == Running(SendAt(RegisterThing)) && CheckAt(p) < SendAt(RegisterThing)
    ensures p in s.promises.settledAt && Happened(s.trace, s.promises.settledAt[p], Settled(p, true), |s.trace|)
  {
    assert IsTrue(s.promises, p);
  }

  /** The evidence at hand when the worker reaches the publish. */
  lemma Gather(s: State) returns (ev: Evidence)
    requires ProtocolOk(s) && !s.crashed && s.worker.place == Running(SendAt(RegisterThing))
    ensures KeysExchanged(s.trace, |s.trace|, ev)
    ensures Happened(s.trace, ev.registerAccepted, Settled(SubscribedTo(RegisterAccepted), true), |s.trace|)
    ensures Happened(s.trace, ev.registerRejected, Settled(SubscribedTo(RegisterRejected), true), |s.trace|)
    ensures Carries(s.trace, |s.trace|, ev, s.keyring.certificateId, s.keyring.token)
  {
    KeptAt(s, SubscribedTo(KeysAccepted));
    KeptAt(s, SubscribedTo(KeysRejected));
    KeptAt(s, SentOut(CreateKeys));
    KeptAt(s, Responded(CreateKeys));
    KeptAt(s, SubscribedTo(RegisterAccepted));
    KeptAt(s, SubscribedTo(RegisterRejected));
    var at := s.promises.settledAt;
    AcceptedBy(s.trace, at[Responded(CreateKeys)]);
    ev := Evidence(at[SubscribedTo(KeysAccepted)], at[SubscribedTo(KeysRejected)], s.sentAt[CreateKeys],
                   at[SentOut(CreateKeys)],
                   at[Responded(CreateKeys)], at[SubscribedTo(RegisterAccepted)], at[SubscribedTo(RegisterRejected)],
                   s.keyring.from.value);
  }

  lemma AcceptedBy(trace: seq<Event>, n: nat)
    requires FirstAnswer(trace, CreateKeys, n, true)
    ensures GivesKeys(trace[n - 1])
  {
  }

  // ---- Every run ----

  lemma WorkerTraceGrows(s: State, submitted: Submitted, ok: bool)
    ensures s.trace <= WorkerStep(s, submitted, ok).trace
  {
    if !s.worker.place.Running? && !s.worker.place.Storing? {
      AroundMoves(s, submitted, ok);
    }
  }

  lemma TraceGrows(s: State, a: Action)
    ensures s.trace <= Step(s, a).trace
  {
    if a.Work? {
      WorkerTraceGrows(s, a.submitted, a.ok);
    }
  }

  /** Only an accepted publish adds the event of one. */
  lemma WorkerPublishes(s: State, submitted: Submitted, ok: bool, n: nat)
    requires |s.trace| <= n < |WorkerStep(s, submitted, ok).trace| && WorkerStep(s, submitted, ok).trace[n].Sent?
    ensures n == |s.trace| && WorkerStep(s, submitted, ok).trace[n].request == RegisterThing ==>
              s.worker.place == Running(SendAt(RegisterThing))
    ensures n == |s.trace| && exists request ::
            WorkerStep(s, submitted, ok).trace == s.trace + [SentEvent(s.keyring, request)]
  {
    if s.worker.place.Running? {
      var pc := s.worker.place.pc;
      WhichInstruction(pc);
      if !(InstructionAt(pc).Send? && submitted.Accepted? && ok) {
        FollowMoves(s, pc, InstructionAt(pc), submitted, ok);
      } else {
        assert WorkerStep(s, submitted, ok).trace == s.trace + [SentEvent(s.keyring, InstructionAt(pc).request)];
      }
    } else if !s.worker.place.Storing? {
      AroundMoves(s, submitted, ok);
    }
  }

  lemma AnswersPublishNothing(s: State, a: Action, n: nat)
    requires a.Answered? && |s.trace| <= n < |Step(s, a).trace|
    ensures !Step(s, a).trace[n].Sent?
  {
  }

  /** Only the worker, at the publish, sends RegisterThing. */
  lemma NewPublish(s: State, a: Action, n: nat)
    requires |s.trace| <= n < |Step(s, a).trace|
    requires Step(s, a).trace[n].Sent? && Step(s, a).trace[n].request == RegisterThing
    ensures n == |s.trace| && !s.crashed && s.worker.place == Running(SendAt(RegisterThing))
    ensures Step(s, a).trace == s.trace + [Sent(RegisterThing, s.keyring.certificateId, s.keyring.token)]
  {
    if a.Work? {
      WorkerPublishes(s, a.submitted, a.ok, n);
    } else if a.Answered? {
      AnswersPublishNothing(s, a, n);
    }
  }

  lemma JustifiesLonger(trace: seq<Event>, longer: seq<Event>, n: nat, ev: Evidence)
    requires Justifies(trace, n, ev) && trace <= longer
    ensures Justifies(longer, n, ev)
  {
  }

  lemma JustifiesNow(trace: seq<Event>, e: Event, ev: Evidence)
    requires e.Sent? && KeysExchanged(trace, |trace|, ev)
    requires Happened(trace, ev.registerAccepted, Settled(SubscribedTo(RegisterAccepted), true), |trace|)
    requires Happened(trace, ev.registerRejected, Settled(SubscribedTo(RegisterRejected), true), |trace|)
    requires Carries(trace, |trace|, ev, e.certificateId, e.token)
    ensures Justifies(trace + [e], |trace|, ev)
  {
  }

  /** Main: in every run, RegisterThing is published only after both key subscriptions were
      confirmed, then CreateKeys was published and confirmed, the first response to it was an
      acceptance with its three files written, and both register subscriptions were confirmed.
      The certificate and the token it carries are the pair of one accepted message of that run,
      the latest, whose files were written. */
  lemma {:induction false} RegisterRestsOnEvidence(topics: Topics, limit: ContextTable.Limit, actions: seq<Action>,
                                                   n: nat)
      returns (ev: Evidence)
    requires var trace := Run(Initial(topics, limit), actions).trace;
             n < |trace| && trace[n].Sent? && trace[n].request == RegisterThing
    ensures Justifies(Run(Initial(topics, limit), actions).trace, n, ev)
  {
    var prefix, a := actions[..|actions| - 1], actions[|actions| - 1];
    var s := Run(Initial(topics, limit), prefix);
    TraceGrows(s, a);
    if n < |s.trace| {
      ev := RegisterRestsOnEvidence(topics, limit, prefix, n);
      JustifiesLonger(s.trace, Step(s, a).trace, n, ev);
    } else {
      NewPublish(s, a, n);
      ProtocolReachable(topics, limit, prefix);
      ev := Gather(s);
      JustifiesNow(s.trace, Step(s, a).trace[n], ev);
    }
  }
}
