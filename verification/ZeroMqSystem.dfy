/** A requester service and a responder service joined by a network that routes a reply to
    the socket that asked, loses what it likes and carries the requests of other clients too. */
module ZeroMqSystem {
  import opened ZeroMqService

  /** Messages under way. The positions are history: ZeroMQ carries none of them. */
  datatype Request = Request(from: Address, sentAt: nat, msg: string)
  datatype Reply = Reply(to: Address, sentAt: nat, receivedAt: nat, postedAt: nat, repliedAt: nat, msg: string)

  datatype System = System(
    req: Client, reqPlace: ReqPlace,
    rep: Client, repPlace: RepPlace,
    requests: set<Request>, replies: set<Reply>,
    trace: seq<Event>)

  /** What a poll finds. */
  datatype Found<M> = Arrived(message: M) | Nothing | Fault

  datatype Action =
    | CallRequester(call: Call)
    | CallResponder(call: Call)
    | WorkRequester(ok: bool, answer: Found<Reply>, closes: bool)
    | WorkResponder(ok: bool, incoming: Found<Request>, closes: bool)
    | ForeignRequest(client: nat, text: string)
    | LoseRequest(request: Request)
    | LoseReply(reply: Reply)

  function Initial(): System {
    System(Inactive(), ReqAwaitOpen, Inactive(), RepAwaitOpen, {}, {}, [])
  }

  function PutReq(s: System, r: ReqResult): System {
    s.(req := r.c, reqPlace := r.place, trace := s.trace + r.events)
  }

  function PutRep(s: System, r: RepResult): System {
    s.(rep := r.c, repPlace := r.place, trace := s.trace + r.events)
  }

  /** Calls other than these wait on a second mutex, which the worker never keeps. */
  predicate NeedsMutex(call: Call) {
    call.Post? || call.CallOpen? || call.CallClose?
  }

  function RequesterWork(s: System, ok: bool, answer: Found<Reply>, closes: bool): System {
    var now := |s.trace|;
    match s.reqPlace
    case ReqAwaitOpen => PutReq(s, ReqConnect(s.req, ok, now))
    case ReqIdle(sock) =>
      var r := ReqServe(s.req, sock, ok, closes, now);
      var sent := if r.place.ReqPolling? then {Request(Own(sock), now, s.req.messageToSend)} else {};
      PutReq(s, r).(requests := s.requests + sent)
    case ReqPolling(sock, _) =>
      (match answer
       case Arrived(reply) =>
         if reply in s.replies && reply.to == Own(sock)
         then PutReq(s, ReqFinish(s.req, sock, GotReply(reply.msg), closes)).(replies := s.replies - {reply})
         else s
       case Nothing => PutReq(s, ReqFinish(s.req, sock, NoReply, closes))
       case Fault => PutReq(s, ReqFinish(s.req, sock, ReqError, closes)))
    case ReqExited => s
  }

  function ResponderWork(s: System, ok: bool, incoming: Found<Request>, closes: bool): System {
    var now := |s.trace|;
    match s.repPlace
    case RepAwaitOpen => PutRep(s, RepConnect(s.rep, ok, now))
    case RepPolling(sock) =>
      (match incoming
       case Arrived(m) =>
         if m in s.requests
         then
           var r := RepPoll(s.rep, sock, GotRequest(m.from, m.sentAt, m.msg), closes, now);
           PutRep(s, r).(requests := s.requests - {m})
         else s
       case Nothing => PutRep(s, RepPoll(s.rep, sock, NoRequest, closes, now))
       case Fault => PutRep(s, RepPoll(s.rep, sock, RepError, closes, now)))
    case RepAnswering(_, asker, sentAt, receivedAt) =>
      var reply := Reply(asker, sentAt, receivedAt, s.rep.postedAt, now, s.rep.messageToSend);
      PutRep(s, RepAnswer(s.rep, s.repPlace, ok, closes))
        .(replies := s.replies + if s.rep.sendMessage && ok then {reply} else {})
    case RepExited => s
  }

  /** One step of anyone; an action that is not possible changes nothing. */
  function Step(s: System, a: Action): System {
    match a
    case CallRequester(call) =>
      if s.reqPlace.ReqPolling? && NeedsMutex(call) then s
      else
        var d := CallStep(Requester, s.req, call, |s.trace|);
        s.(req := d.c, trace := s.trace + d.events)
    case CallResponder(call) =>
      var d := CallStep(Responder, s.rep, call, |s.trace|);
      s.(rep := d.c, trace := s.trace + d.events)
    case WorkRequester(ok, answer, closes) => RequesterWork(s, ok, answer, closes)
    case WorkResponder(ok, incoming, closes) => ResponderWork(s, ok, incoming, closes)
    case ForeignRequest(client, text) =>
      s.(requests := s.requests + {Request(Foreign(client), |s.trace|, text)},
         trace := s.trace + [ForeignSent(client, text)])
    case LoseRequest(request) => s.(requests := s.requests - {request})
    case LoseReply(reply) => s.(replies := s.replies - {reply})
  }

  function Run(actions: seq<Action>): System {
    if actions == [] then Initial()
    else Step(Run(actions[..|actions| - 1]), actions[|actions| - 1])
  }

  // ---- Reading the trace ----

  datatype Kind =
    | PostBy(side: Side)
    | Transmission
    | ResponderUse
    | OpenCall(side: Side)
    | CloseCall(side: Side)
    | Connection(side: Side)
    | Closure(side: Side)

  predicate IsA(e: Event, kind: Kind) {
    match kind
    case PostBy(side) => e.Posted? && e.side == side
    case Transmission => e.Sent?
    case ResponderUse => e.Received? || e.Replied?
    case OpenCall(side) => e.OpenCalled? && e.side == side
    case CloseCall(side) => e.CloseCalled? && e.side == side
    case Connection(side) => e.Up? && e.side == side
    case Closure(side) => e.Down? && e.side == side
  }

  /** No event of the kind strictly between the two positions. */
  predicate Clear(trace: seq<Event>, kind: Kind, lo: int, hi: int)
    requires -1 <= lo && hi <= |trace|
  {
    forall i :: lo < i < hi ==> !IsA(trace[i], kind)
  }

  /** The way of one reply: request `a` sent on `sock`, received at `b`, the reply posted at
      `c` as the latest post, transmitted at `e` as the next use of the responder's socket. */
  predicate ReplyChain(trace: seq<Event>, sock: nat, msg: string, a: nat, b: nat, c: nat, e: nat) {
    && a < b < c < e < |trace|
    && trace[a].Sent? && trace[a].sock == sock
    && trace[b].Received? && trace[b].asker == Own(sock) && trace[b].sentAt == a && trace[b].msg == trace[a].msg
    && trace[c] == Posted(Responder, msg)
    && trace[e] == Replied(trace[b].sock, msg)
    && Clear(trace, PostBy(Responder), c, e)
    && Clear(trace, ResponderUse, b, e)
  }

  // ---- The invariant ----

  /** The asker's request, as the trace tells it. */
  predicate AskedAt(trace: seq<Event>, from: Address, sentAt: nat, msg: string) {
    && sentAt < |trace|
    && match from
       case Own(sock) => sock < sentAt && trace[sentAt] == Sent(sock, msg)
       case Foreign(client) => trace[sentAt] == ForeignSent(client, msg)
  }

  predicate RequestOk(trace: seq<Event>, r: Request) {
    AskedAt(trace, r.from, r.sentAt, r.msg)
  }

  predicate ReceivedOk(trace: seq<Event>, b: nat, asker: Address, sentAt: nat) {
    && sentAt < b < |trace|
    && trace[b].Received? && trace[b].asker == asker && trace[b].sentAt == sentAt
    && AskedAt(trace, asker, sentAt, trace[b].msg)
  }

  predicate ReplyOk(trace: seq<Event>, r: Reply) {
    && ReceivedOk(trace, r.receivedAt, r.to, r.sentAt)
    && r.receivedAt < r.postedAt < r.repliedAt < |trace|
    && trace[r.postedAt] == Posted(Responder, r.msg)
    && trace[r.repliedAt] == Replied(trace[r.receivedAt].sock, r.msg)
    && Clear(trace, PostBy(Responder), r.postedAt, r.repliedAt)
    && Clear(trace, ResponderUse, r.receivedAt, r.repliedAt)
  }

  /** No request is received twice. */
  ghost predicate ReceivedOnce(trace: seq<Event>, requests: set<Request>) {
    && (forall b :: 0 <= b < |trace| && trace[b].Received? ==> trace[b].sentAt < b)
    && (forall b, b' :: 0 <= b < b' < |trace| && trace[b].Received? && trace[b'].Received? ==>
          trace[b].sentAt != trace[b'].sentAt)
    && (forall r, b :: r in requests && 0 <= b < |trace| && trace[b].Received? ==> trace[b].sentAt != r.sentAt)
  }

  /** A waiting message is the latest post of its side. */
  predicate PostOk(trace: seq<Event>, side: Side, c: Client) {
    c.sendMessage ==>
      && c.postedAt < |trace| && trace[c.postedAt] == Posted(side, c.messageToSend)
      && Clear(trace, PostBy(side), c.postedAt, |trace|)
  }

  predicate RequesterOk(trace: seq<Event>, req: Client, place: ReqPlace) {
    && PostOk(trace, Requester, req)
    && (req.sendMessage ==> Clear(trace, Transmission, req.postedAt, |trace|))
    && (place.ReqIdle? ==> place.sock < |trace|)
    && (place.ReqPolling? ==>
          && place.sock < place.sentAt < |trace|
          && trace[place.sentAt].Sent? && trace[place.sentAt].sock == place.sock
          && Clear(trace, Transmission, place.sentAt, |trace|))
  }

  predicate ResponderOk(trace: seq<Event>, rep: Client, place: RepPlace) {
    && PostOk(trace, Responder, rep)
    && (place.RepAnswering? ==>
          && ReceivedOk(trace, place.receivedAt, place.asker, place.sentAt)
          && trace[place.receivedAt].sock == place.sock
          && Clear(trace, ResponderUse, place.receivedAt, |trace|)
          && (rep.sendMessage ==> rep.postedAt > place.receivedAt))
  }

  ghost predicate NetworkOk(trace: seq<Event>, requests: set<Request>, replies: set<Reply>) {
    && (forall r :: r in requests ==> RequestOk(trace, r))
    && (forall r :: r in replies ==> ReplyOk(trace, r))
  }

  /** A message of socket `sock` under way anywhere belongs to the request sent at `sentAt`. */
  ghost predicate OnlyRequest(s: System, sock: nat, sentAt: nat) {
    && (forall r :: r in s.requests && r.from == Own(sock) ==> r.sentAt == sentAt)
    && (forall r :: r in s.replies && r.to == Own(sock) ==> r.sentAt == sentAt)
    && (s.repPlace.RepAnswering? && s.repPlace.asker == Own(sock) ==> s.repPlace.sentAt == sentAt)
  }

  ghost predicate NothingUnderWay(s: System, sock: nat) {
    && (forall r :: r in s.requests ==> r.from != Own(sock))
    && (forall r :: r in s.replies ==> r.to != Own(sock))
    && (s.repPlace.RepAnswering? ==> s.repPlace.asker != Own(sock))
  }

  /** At most one request or reply of the requester's live socket is outstanding. */
  ghost predicate OneOutstanding(s: System) {
    match s.reqPlace
    case ReqIdle(sock) => NothingUnderWay(s, sock)
    case ReqPolling(sock, sentAt) => OnlyRequest(s, sock, sentAt)
    case _ => true
  }

  ghost predicate Invariant(s: System) {
    && ReceivedOnce(s.trace, s.requests)
    && RequesterOk(s.trace, s.req, s.reqPlace)
    && ResponderOk(s.trace, s.rep, s.repPlace)
    && NetworkOk(s.trace, s.requests, s.replies)
    && OneOutstanding(s)
  }

  // ---- Growing the trace ----

  predicate Quiet(events: seq<Event>, kind: Kind) {
    forall i :: 0 <= i < |events| ==> !IsA(events[i], kind)
  }

  lemma ClearGrows(trace: seq<Event>, events: seq<Event>, kind: Kind, lo: int)
    requires -1 <= lo && Clear(trace, kind, lo, |trace|) && Quiet(events, kind)
    ensures Clear(trace + events, kind, lo, |trace + events|)
  {
    forall i | lo < i < |trace + events| ensures !IsA((trace + events)[i], kind) {
      if i >= |trace| {
        assert (trace + events)[i] == events[i - |trace|];
      }
    }
  }

  lemma NetworkGrows(trace: seq<Event>, events: seq<Event>, requests: set<Request>, replies: set<Reply>)
    requires NetworkOk(trace, requests, replies)
    ensures NetworkOk(trace + events, requests, replies)
  {
    forall r | r in requests ensures RequestOk(trace + events, r) {
      assert RequestOk(trace, r);
    }
    forall r | r in replies ensures ReplyOk(trace + events, r) {
      assert ReplyOk(trace, r);
    }
  }

  lemma ReceivedOnceGrows(trace: seq<Event>, events: seq<Event>, requests: set<Request>)
    requires ReceivedOnce(trace, requests)
    requires forall i :: 0 <= i < |events| ==> !events[i].Received?
    ensures ReceivedOnce(trace + events, requests)
  {
    forall b | |trace| <= b < |trace + events| ensures !(trace + events)[b].Received? {
      assert (trace + events)[b] == events[b - |trace|];
    }
  }

  lemma RequesterGrows(trace: seq<Event>, events: seq<Event>, req: Client, place: ReqPlace)
    requires RequesterOk(trace, req, place) && Quiet(events, PostBy(Requester)) && Quiet(events, Transmission)
    ensures RequesterOk(trace + events, req, place)
  {
    if req.sendMessage {
      ClearGrows(trace, events, PostBy(Requester), req.postedAt);
      ClearGrows(trace, events, Transmission, req.postedAt);
    }
    if place.ReqPolling? {
      ClearGrows(trace, events, Transmission, place.sentAt);
    }
  }

  lemma ResponderGrows(trace: seq<Event>, events: seq<Event>, rep: Client, place: RepPlace)
    requires ResponderOk(trace, rep, place) && Quiet(events, PostBy(Responder)) && Quiet(events, ResponderUse)
    ensures ResponderOk(trace + events, rep, place)
  {
    if rep.sendMessage {
      ClearGrows(trace, events, PostBy(Responder), rep.postedAt);
    }
    if place.RepAnswering? {
      ClearGrows(trace, events, ResponderUse, place.receivedAt);
    }
  }
}
