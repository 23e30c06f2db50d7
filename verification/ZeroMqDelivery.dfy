/** End to end over every run: a reply handed to the requester's callback answers the last
    request transmitted, with a message the responder posted after it received that request. */
module ZeroMqDelivery {
  import opened ZeroMqService
  import opened ZeroMqSystem

  // ---- Every step keeps the invariant ----

  /** Nothing the responder's side of the invariant looks at. */
  predicate RequesterEvents(events: seq<Event>) {
    && Quiet(events, PostBy(Responder)) && Quiet(events, ResponderUse)
    && forall i :: 0 <= i < |events| ==> !events[i].Received?
  }

  /** Nothing the requester's side of the invariant looks at. */
  predicate ResponderEvents(events: seq<Event>) {
    Quiet(events, PostBy(Requester)) && Quiet(events, Transmission)
  }

  lemma RequesterStepFrame(s: System, events: seq<Event>)
    requires Invariant(s) && RequesterEvents(events)
    ensures var trace := s.trace + events;
            && ReceivedOnce(trace, s.requests) && ResponderOk(trace, s.rep, s.repPlace)
            && NetworkOk(trace, s.requests, s.replies)
  {
    ReceivedOnceGrows(s.trace, events, s.requests);
    ResponderGrows(s.trace, events, s.rep, s.repPlace);
    NetworkGrows(s.trace, events, s.requests, s.replies);
  }

  lemma ResponderStepFrame(s: System, events: seq<Event>)
    requires Invariant(s) && ResponderEvents(events)
    ensures var trace := s.trace + events;
            RequesterOk(trace, s.req, s.reqPlace) && NetworkOk(trace, s.requests, s.replies)
  {
    RequesterGrows(s.trace, events, s.req, s.reqPlace);
    NetworkGrows(s.trace, events, s.requests, s.replies);
  }

  /** A socket about to be named has nothing under way. */
  lemma FreshSocket(s: System)
    requires Invariant(s)
    ensures NothingUnderWay(s, |s.trace|)
  {
    forall r | r in s.requests ensures r.from != Own(|s.trace|) {
      assert RequestOk(s.trace, r);
    }
    forall r | r in s.replies ensures r.to != Own(|s.trace|) {
      assert ReplyOk(s.trace, r);
    }
  }

  lemma PostRequesterKeeps(s: System, msg: string)
    requires Invariant(s)
    ensures Invariant(Step(s, CallRequester(Call.Post(msg))))
  {
    var events := CallStep(Requester, s.req, Call.Post(msg), |s.trace|).events;
    RequesterStepFrame(s, events);
    if s.req.requireSocketState.Close? {
      RequesterGrows(s.trace, events, s.req, s.reqPlace);
    }
  }

  /** Calls other than a post leave the waiting message alone. */
  lemma CallRequesterKeeps(s: System, call: Call)
    requires Invariant(s) && !call.Post?
    ensures Invariant(Step(s, CallRequester(call)))
  {
    var events := CallStep(Requester, s.req, call, |s.trace|).events;
    RequesterStepFrame(s, events);
    RequesterGrows(s.trace, events, s.req, s.reqPlace);
  }

  lemma PostResponderKeeps(s: System, msg: string)
    requires Invariant(s)
    ensures Invariant(Step(s, CallResponder(Call.Post(msg))))
  {
    var events := CallStep(Responder, s.rep, Call.Post(msg), |s.trace|).events;
    ResponderStepFrame(s, events);
    ReceivedOnceGrows(s.trace, events, s.requests);
    if s.rep.requireSocketState.Close? {
      ResponderGrows(s.trace, events, s.rep, s.repPlace);
    } else if s.repPlace.RepAnswering? {
      ClearGrows(s.trace, events, ResponderUse, s.repPlace.receivedAt);
    }
  }

  lemma CallResponderKeeps(s: System, call: Call)
    requires Invariant(s) && !call.Post?
    ensures Invariant(Step(s, CallResponder(call)))
  {
    var events := CallStep(Responder, s.rep, call, |s.trace|).events;
    ResponderStepFrame(s, events);
    ReceivedOnceGrows(s.trace, events, s.requests);
    ResponderGrows(s.trace, events, s.rep, s.repPlace);
  }

  /** Requester steps that neither transmit nor take a reply. */
  lemma QuietRequesterKeeps(s: System, r: ReqResult)
    requires Invariant(s) && RequesterEvents(r.events) && Quiet(r.events, PostBy(Requester))
             && Quiet(r.events, Transmission)
    requires r.c.sendMessage ==>
               s.req.sendMessage && r.c.postedAt == s.req.postedAt && r.c.messageToSend == s.req.messageToSend
    requires r.place.ReqIdle? ==> r.place.sock < |s.trace + r.events| && NothingUnderWay(s, r.place.sock)
    requires !r.place.ReqPolling?
    ensures Invariant(PutReq(s, r))
  {
    RequesterStepFrame(s, r.events);
    if r.c.sendMessage {
      ClearGrows(s.trace, r.events, PostBy(Requester), s.req.postedAt);
      ClearGrows(s.trace, r.events, Transmission, s.req.postedAt);
    }
  }

  lemma TransmissionKeeps(s: System, closes: bool)
    requires Invariant(s) && s.reqPlace.ReqIdle? && s.req.sendMessage
    ensures Invariant(RequesterWork(s, true, Nothing, closes))
  {
    var sock, now := s.reqPlace.sock, |s.trace|;
    var r := ReqServe(s.req, sock, true, closes, now);
    var sent := Request(Own(sock), now, s.req.messageToSend);
    RequesterStepFrame(s, r.events);
    var trace := s.trace + r.events;
    assert trace[now] == Sent(sock, s.req.messageToSend);
    assert RequestOk(trace, sent);
    assert NetworkOk(trace, s.requests + {sent}, s.replies);
    forall b | 0 <= b < |trace| && trace[b].Received? ensures trace[b].sentAt != now {
    }
    assert ReceivedOnce(trace, s.requests + {sent});
  }

  /** The request a reply answers is nowhere else: not under way, not being answered, and no
      other reply answers it. */
  lemma ReplyIsAlone(s: System, reply: Reply, sock: nat)
    requires Invariant(s) && reply in s.replies && reply.to == Own(sock) && OnlyRequest(s, sock, reply.sentAt)
    ensures NothingUnderWay(s.(replies := s.replies - {reply}), sock)
  {
    assert ReplyOk(s.trace, reply);
    forall r | r in s.replies && r.to == Own(sock) ensures r == reply {
      assert ReplyOk(s.trace, r);
      assert r.receivedAt == reply.receivedAt;
      assert r.repliedAt == reply.repliedAt by {
        assert IsA(s.trace[r.repliedAt], ResponderUse) && IsA(s.trace[reply.repliedAt], ResponderUse);
      }
      assert r.postedAt == reply.postedAt by {
        assert IsA(s.trace[r.postedAt], PostBy(Responder)) && IsA(s.trace[reply.postedAt], PostBy(Responder));
      }
    }
    assert IsA(s.trace[reply.repliedAt], ResponderUse);
  }

  lemma IdleRequesterKeeps(s: System, ok: bool, closes: bool)
    requires Invariant(s) && s.reqPlace.ReqIdle?
    ensures Invariant(RequesterWork(s, ok, Nothing, closes))
  {
    if s.req.sendMessage && ok {
      TransmissionKeeps(s, closes);
    } else {
      var r := ReqServe(s.req, s.reqPlace.sock, ok, closes, |s.trace|);
      QuietRequesterKeeps(s, r);
      assert RequesterWork(s, ok, Nothing, closes) == PutReq(s, r);
    }
  }

  lemma DeliveryKeeps(s: System, reply: Reply, closes: bool)
    requires Invariant(s) && s.reqPlace.ReqPolling? && reply in s.replies && reply.to == Own(s.reqPlace.sock)
    ensures Invariant(RequesterWork(s, true, Arrived(reply), closes))
  {
    var sock := s.reqPlace.sock;
    ReplyIsAlone(s, reply, sock);
    QuietRequesterKeeps(s.(replies := s.replies - {reply}), ReqFinish(s.req, sock, GotReply(reply.msg), closes));
  }

  lemma RequesterWorkKeeps(s: System, ok: bool, answer: Found<Reply>, closes: bool)
    requires Invariant(s)
    ensures Invariant(RequesterWork(s, ok, answer, closes))
  {
    match s.reqPlace
    case ReqAwaitOpen =>
      FreshSocket(s);
      QuietRequesterKeeps(s, ReqConnect(s.req, ok, |s.trace|));
    case ReqIdle(sock) =>
      IdleRequesterKeeps(s, ok, closes);
    case ReqPolling(sock, sentAt) =>
      if !answer.Arrived? {
        QuietRequesterKeeps(s, ReqFinish(s.req, sock, if answer.Nothing? then NoReply else ReqError, closes));
      } else if answer.message in s.replies && answer.message.to == Own(sock) {
        DeliveryKeeps(s, answer.message, closes);
      }
    case ReqExited =>
  }

  /** Responder steps that take no request and transmit no reply. */
  lemma QuietResponderKeeps(s: System, r: RepResult)
    requires Invariant(s) && ResponderEvents(r.events) && Quiet(r.events, PostBy(Responder))
    requires forall i :: 0 <= i < |r.events| ==> !r.events[i].Received?
    requires r.c.sendMessage ==>
               s.rep.sendMessage && r.c.postedAt == s.rep.postedAt && r.c.messageToSend == s.rep.messageToSend
    requires r.place.RepAnswering? ==> r.place == s.repPlace && r.c == s.rep && r.events == []
    ensures Invariant(PutRep(s, r))
  {
    ResponderStepFrame(s, r.events);
    ReceivedOnceGrows(s.trace, r.events, s.requests);
    if r.c.sendMessage {
      ClearGrows(s.trace, r.events, PostBy(Responder), s.rep.postedAt);
    }
    if r.events == [] {
      assert s.trace + r.events == s.trace;
    }
  }

  lemma ReceptionKeeps(s: System, sock: nat, m: Request, closes: bool)
    requires Invariant(s) && s.repPlace == RepPolling(sock) && m in s.requests
    ensures Invariant(ResponderWork(s, true, Arrived(m), closes))
  {
    var now := |s.trace|;
    var r := RepPoll(s.rep, sock, GotRequest(m.from, m.sentAt, m.msg), closes, now);
    ResponderStepFrame(s, r.events);
    var trace, requests := s.trace + r.events, s.requests - {m};
    assert RequestOk(s.trace, m);
    assert trace[now] == Received(sock, m.from, m.sentAt, m.msg);
    forall q | q in requests ensures q.sentAt != m.sentAt {
      assert RequestOk(s.trace, q);
    }
    assert ReceivedOnce(trace, requests);
    assert AskedAt(trace, m.from, m.sentAt, m.msg);
  }

  lemma NewReplyOk(s: System, events: seq<Event>)
    requires Invariant(s) && s.repPlace.RepAnswering? && s.rep.sendMessage
    requires events != [] && events[0] == Replied(s.repPlace.sock, s.rep.messageToSend)
    ensures ReplyOk(s.trace + events, Reply(s.repPlace.asker, s.repPlace.sentAt, s.repPlace.receivedAt,
                                            s.rep.postedAt, |s.trace|, s.rep.messageToSend))
  {
  }

  lemma ReplyKeeps(s: System, closes: bool)
    requires Invariant(s) && s.repPlace.RepAnswering? && s.rep.sendMessage
    ensures Invariant(ResponderWork(s, true, Nothing, closes))
  {
    var r := RepAnswer(s.rep, s.repPlace, true, closes);
    QuietResponderKeeps(s, r);
    NewReplyOk(s, r.events);
    var reply := Reply(s.repPlace.asker, s.repPlace.sentAt, s.repPlace.receivedAt, s.rep.postedAt, |s.trace|,
                       s.rep.messageToSend);
    AddReply(s, PutRep(s, r), reply);
  }

  /** The reply takes the place of the request being answered. */
  lemma AddReply(s: System, s': System, reply: Reply)
    requires OneOutstanding(s) && s.repPlace.RepAnswering?
    requires s'.reqPlace == s.reqPlace && s'.requests == s.requests && s'.replies == s.replies
    requires Invariant(s') && ReplyOk(s'.trace, reply)
    requires reply.to == s.repPlace.asker && reply.sentAt == s.repPlace.sentAt
    ensures Invariant(s'.(replies := s'.replies + {reply}))
  {
  }

  lemma ResponderWorkKeeps(s: System, ok: bool, incoming: Found<Request>, closes: bool)
    requires Invariant(s)
    ensures Invariant(ResponderWork(s, ok, incoming, closes))
  {
    match s.repPlace
    case RepAwaitOpen =>
      QuietResponderKeeps(s, RepConnect(s.rep, ok, |s.trace|));
    case RepPolling(sock) =>
      if incoming.Arrived? {
        if incoming.message in s.requests {
          ReceptionKeeps(s, sock, incoming.message, closes);
        }
      } else {
        var outcome := if incoming.Nothing? then NoRequest else RepError;
        QuietResponderKeeps(s, RepPoll(s.rep, sock, outcome, closes, |s.trace|));
      }
    case RepAnswering(_, _, _, _) =>
      if s.rep.sendMessage && ok {
        ReplyKeeps(s, closes);
      } else {
        var r := RepAnswer(s.rep, s.repPlace, ok, closes);
        QuietResponderKeeps(s, r);
        assert ResponderWork(s, ok, incoming, closes) == PutRep(s, r);
      }
    case RepExited =>
  }

  lemma ForeignRequestKeeps(s: System, client: nat, text: string)
    requires Invariant(s)
    ensures Invariant(Step(s, ForeignRequest(client, text)))
  {
    var events := [ForeignSent(client, text)];
    RequesterStepFrame(s, events);
    ResponderStepFrame(s, events);
    var m := Request(Foreign(client), |s.trace|, text);
    assert RequestOk(s.trace + events, m);
  }

  lemma StepKeepsInvariant(s: System, a: Action)
    requires Invariant(s)
    ensures Invariant(Step(s, a))
  {
    match a
    case CallRequester(call) =>
      if call.Post? {
        PostRequesterKeeps(s, call.msg);
      } else {
        CallRequesterKeeps(s, call);
      }
    case CallResponder(call) =>
      if call.Post? {
        PostResponderKeeps(s, call.msg);
      } else {
        CallResponderKeeps(s, call);
      }
    case WorkRequester(ok, answer, closes) => RequesterWorkKeeps(s, ok, answer, closes);
    case WorkResponder(ok, incoming, closes) => ResponderWorkKeeps(s, ok, incoming, closes);
    case ForeignRequest(client, text) => ForeignRequestKeeps(s, client, text);
    case LoseRequest(_) =>
    case LoseReply(_) =>
  }

  lemma {:induction false} Reachable(actions: seq<Action>)
    ensures Invariant(Run(actions))
  {
    if actions != [] {
      Reachable(actions[..|actions| - 1]);
      StepKeepsInvariant(Run(actions[..|actions| - 1]), actions[|actions| - 1]);
    }
  }

  // ---- The events of one step ----

  /** A step only adds events. */
  lemma TraceGrows(s: System, a: Action)
    ensures s.trace <= Step(s, a).trace
  {
  }

  /** Only a requester that polls delivers, only one with a message waiting transmits, and that
      is the first event of the step. */
  lemma RequesterWorkEvents(s: System, ok: bool, answer: Found<Reply>, closes: bool, i: nat)
    requires |s.trace| <= i < |RequesterWork(s, ok, answer, closes).trace|
    ensures var e := RequesterWork(s, ok, answer, closes).trace[i];
            && !e.Replied?
            && (e.Delivered? ==>
                  && i == |s.trace| && s.reqPlace.ReqPolling? && answer.Arrived?
                  && answer.message in s.replies && answer.message.to == Own(s.reqPlace.sock)
                  && e == Delivered(s.reqPlace.sock, answer.message.msg))
            && (e.Sent? ==> i == |s.trace| && s.req.sendMessage && e.msg == s.req.messageToSend)
  {
  }

  lemma ResponderWorkEvents(s: System, ok: bool, incoming: Found<Request>, closes: bool, i: nat)
    requires |s.trace| <= i < |ResponderWork(s, ok, incoming, closes).trace|
    ensures var e := ResponderWork(s, ok, incoming, closes).trace[i];
            && !e.Delivered? && !e.Sent?
            && (e.Replied? ==>
                  i == |s.trace| && s.repPlace.RepAnswering? && s.rep.sendMessage
                  && e == Replied(s.repPlace.sock, s.rep.messageToSend))
  {
  }

  /** Every other step does none of the three. */
  lemma OtherEvents(s: System, a: Action, i: nat)
    requires |s.trace| <= i < |Step(s, a).trace| && !a.WorkRequester? && !a.WorkResponder?
    ensures var e := Step(s, a).trace[i]; !e.Delivered? && !e.Sent? && !e.Replied?
  {
  }

  lemma WhoDelivers(s: System, a: Action, i: nat)
    requires |s.trace| <= i < |Step(s, a).trace|
    ensures var e := Step(s, a).trace[i];
            && (e.Delivered? || e.Sent? ==> a.WorkRequester?)
            && (e.Replied? ==> a.WorkResponder?)
  {
    match a
    case WorkRequester(ok, answer, closes) => RequesterWorkEvents(s, ok, answer, closes, i);
    case WorkResponder(ok, incoming, closes) => ResponderWorkEvents(s, ok, incoming, closes, i);
    case _ => OtherEvents(s, a, i);
  }

  lemma DeliveryOfStep(s: System, a: Action, d: nat) returns (first: nat, b: nat, c: nat, e: nat)
    requires Invariant(s) && |s.trace| <= d < |Step(s, a).trace| && Step(s, a).trace[d].Delivered?
    ensures var trace := Step(s, a).trace;
            && ReplyChain(trace, trace[d].sock, trace[d].msg, first, b, c, e)
            && e < d && Clear(trace, Transmission, first, d)
  {
    WhoDelivers(s, a, d);
    RequesterWorkEvents(s, a.ok, a.answer, a.closes, d);
    TraceGrows(s, a);
    var reply := a.answer.message;
    assert ReplyOk(s.trace, reply);
    first, b, c, e := reply.sentAt, reply.receivedAt, reply.postedAt, reply.repliedAt;
    ChainSurvives(s.trace, Step(s, a).trace, s.reqPlace.sock, reply.msg, first, b, c, e);
  }

  lemma ChainSurvives(trace: seq<Event>, longer: seq<Event>, sock: nat, msg: string, a: nat, b: nat, c: nat, e: nat)
    requires trace <= longer && ReplyChain(trace, sock, msg, a, b, c, e)
    ensures ReplyChain(longer, sock, msg, a, b, c, e)
  {
  }

  /** End to end, over any interleaving of both services, their users, the network and other
      clients, with timeouts, errors, losses and reopenings: whenever a reply is handed to the
      requester's callback at `d`, it answers request `a`, the last one the requester had
      transmitted, and carries the message that was the responder's latest post, made at `c`
      after the responder received that very request at `b`. */
  lemma {:induction false} EveryDeliveryAnswersTheLastRequest(actions: seq<Action>, d: nat)
    returns (a: nat, b: nat, c: nat, e: nat)
    requires d < |Run(actions).trace| && Run(actions).trace[d].Delivered?
    ensures var trace := Run(actions).trace;
            && ReplyChain(trace, trace[d].sock, trace[d].msg, a, b, c, e)
            && e < d && Clear(trace, Transmission, a, d)
  {
    var before, last := actions[..|actions| - 1], actions[|actions| - 1];
    var s := Run(before);
    TraceGrows(s, last);
    if d < |s.trace| {
      a, b, c, e := EveryDeliveryAnswersTheLastRequest(before, d);
      var trace := Run(actions).trace;
      ChainSurvives(s.trace, trace, trace[d].sock, trace[d].msg, a, b, c, e);
    } else {
      Reachable(before);
      a, b, c, e := DeliveryOfStep(s, last, d);
    }
  }

  lemma TransmissionOfStep(s: System, a: Action, i: nat) returns (c: nat)
    requires Invariant(s) && |s.trace| <= i < |Step(s, a).trace| && Step(s, a).trace[i].Sent?
    ensures var trace := Step(s, a).trace;
            && c < i && trace[c] == Posted(Requester, trace[i].msg)
            && Clear(trace, PostBy(Requester), c, i) && Clear(trace, Transmission, c, i)
  {
    WhoDelivers(s, a, i);
    RequesterWorkEvents(s, a.ok, a.answer, a.closes, i);
    TraceGrows(s, a);
    c := s.req.postedAt;
  }

  /** Every request transmitted is the latest message posted, and no post is transmitted twice:
      nothing else was posted or transmitted since. */
  lemma {:induction false} EveryRequestIsTheLatestPost(actions: seq<Action>, i: nat) returns (c: nat)
    requires i < |Run(actions).trace| && Run(actions).trace[i].Sent?
    ensures var trace := Run(actions).trace;
            && c < i && trace[c] == Posted(Requester, trace[i].msg)
            && Clear(trace, PostBy(Requester), c, i) && Clear(trace, Transmission, c, i)
  {
    var before, last := actions[..|actions| - 1], actions[|actions| - 1];
    var s := Run(before);
    TraceGrows(s, last);
    if i < |s.trace| {
      c := EveryRequestIsTheLatestPost(before, i);
    } else {
      Reachable(before);
      c := TransmissionOfStep(s, last, i);
    }
  }

  lemma ReplyOfStep(s: System, a: Action, e: nat) returns (b: nat, c: nat)
    requires Invariant(s) && |s.trace| <= e < |Step(s, a).trace| && Step(s, a).trace[e].Replied?
    ensures var trace := Step(s, a).trace;
            && b < c < e && trace[b].Received? && trace[b].sock == trace[e].sock
            && Clear(trace, ResponderUse, b, e)
            && trace[c] == Posted(Responder, trace[e].msg) && Clear(trace, PostBy(Responder), c, e)
  {
    WhoDelivers(s, a, e);
    ResponderWorkEvents(s, a.ok, a.incoming, a.closes, e);
    TraceGrows(s, a);
    b, c := s.repPlace.receivedAt, s.rep.postedAt;
  }

  /** Every reply the responder transmits is the latest message posted, and it was posted after
      the request it answers was received on that socket: a message posted while polling is
      never sent as a reply. */
  lemma {:induction false} EveryReplyIsPostedAfterItsRequest(actions: seq<Action>, e: nat) returns (b: nat, c: nat)
    requires e < |Run(actions).trace| && Run(actions).trace[e].Replied?
    ensures var trace := Run(actions).trace;
            && b < c < e && trace[b].Received? && trace[b].sock == trace[e].sock
            && Clear(trace, ResponderUse, b, e)
            && trace[c] == Posted(Responder, trace[e].msg) && Clear(trace, PostBy(Responder), c, e)
  {
    var before, last := actions[..|actions| - 1], actions[|actions| - 1];
    var s := Run(before);
    TraceGrows(s, last);
    if e < |s.trace| {
      b, c := EveryReplyIsPostedAfterItsRequest(before, e);
    } else {
      Reachable(before);
      b, c := ReplyOfStep(s, last, e);
    }
  }
}
