/** The request/reply service gets on: what is posted is transmitted, what arrives is handed over,
    a reply that comes is delivered, and a deactivated worker ends. */
module ZeroMqProgress {
  import opened ZeroMqService
  import opened ZeroMqSystem
  import opened ZeroMqHandshake

  /** The service of that side is required open, and its worker is not told to end. */
  predicate Wanted(c: Client) {
    c.requireSocketState.Open? && c.runThd
  }

  // ---- The requester ----

  /** A reply that the poll finds is the next thing handed to the callback; nothing times out; and
      the socket is kept exactly while the service is wanted. */
  lemma ReplyIsDelivered(s: System, reply: Reply, ok: bool, closes: bool)
    requires s.reqPlace.ReqPolling? && reply in s.replies && reply.to == Own(s.reqPlace.sock)
    ensures var sock := s.reqPlace.sock;
            var s' := Step(s, WorkRequester(ok, Arrived(reply), closes));
            && s'.trace == s.trace + [Delivered(sock, reply.msg)]
                 + (if Wanted(s.req) then [] else if closes then [Down(Requester, sock)] else [Failed(Requester, sock)])
            && (s'.reqPlace == ReqIdle(sock) <==> Wanted(s.req))
            && (!Wanted(s.req) ==> s'.reqPlace == ReqAwaitOpen)
            && s'.replies == s.replies - {reply} && s'.requests == s.requests
  {
  }

  /** A poll that finds nothing is reported as a timeout, and the socket is given up. */
  lemma NothingTimesOut(s: System, ok: bool, closes: bool)
    requires s.reqPlace.ReqPolling?
    ensures var sock := s.reqPlace.sock;
            var s' := Step(s, WorkRequester(ok, Nothing, closes));
            && s'.trace == s.trace + [TimedOut(sock), if closes then Down(Requester, sock) else Failed(Requester, sock)]
            && s'.reqPlace == ReqAwaitOpen
  {
  }

  /** A timeout is reported only when the poll found nothing. */
  lemma TimedOutOnlyOnNothing(s: System, a: Action, i: nat)
    requires |s.trace| <= i < |Step(s, a).trace| && Step(s, a).trace[i].TimedOut?
    ensures a.WorkRequester? && a.answer.Nothing?
            && s.reqPlace == ReqPolling(Step(s, a).trace[i].sock, s.reqPlace.sentAt)
  {
    if !a.WorkRequester? {
      OthersTimeNothingOut(s, a, i);
    }
  }

  lemma OthersTimeNothingOut(s: System, a: Action, i: nat)
    requires |s.trace| <= i < |Step(s, a).trace| && !a.WorkRequester?
    ensures !Step(s, a).trace[i].TimedOut?
  {
    if a.WorkResponder? {
      RespondersTimeNothingOut(s, a.ok, a.incoming, a.closes, i);
    }
  }

  lemma RespondersTimeNothingOut(s: System, ok: bool, incoming: Found<Request>, closes: bool, i: nat)
    requires |s.trace| <= i < |ResponderWork(s, ok, incoming, closes).trace|
    ensures !ResponderWork(s, ok, incoming, closes).trace[i].TimedOut?
  {
  }

  /** A waiting message is transmitted and goes on its way, whatever else is required. */
  lemma WaitingMessageIsSent(s: System, answer: Found<Reply>, closes: bool)
    requires s.reqPlace.ReqIdle? && s.req.sendMessage
    ensures var sock, now, msg := s.reqPlace.sock, |s.trace|, s.req.messageToSend;
            var s' := Step(s, WorkRequester(true, answer, closes));
            && s'.trace == s.trace + [Sent(sock, msg)] && s'.reqPlace == ReqPolling(sock, now)
            && s'.requests == s.requests + {Request(Own(sock), now, msg)} && !s'.req.sendMessage
            && s'.replies == s.replies && s'.rep == s.rep && s'.repPlace == s.repPlace
            && s'.req == s.req.(sendMessage := false)
  {
  }

  // ---- Both sides ----

  function Caller(side: Side, call: Call): Action {
    if side == Requester then CallRequester(call) else CallResponder(call)
  }

  function PutClient(s: System, side: Side, c: Client): System {
    if side == Requester then s.(req := c) else s.(rep := c)
  }

  /** A message is accepted exactly when the service is required open, and then waits in place of
      any earlier one; else the caller is told. */
  lemma PostIsAccepted(s: System, side: Side, msg: string)
    requires !(side == Requester && s.reqPlace.ReqPolling?)
    ensures var c := ClientOf(s, side);
            Step(s, Caller(side, Post(msg))) ==
            if c.requireSocketState.Open?
            then PutClient(s, side, c.(messageToSend := msg, sendMessage := true, postedAt := |s.trace|))
                   .(trace := s.trace + [Posted(side, msg)])
            else s.(trace := s.trace + [PostRefused(side)])
  {
  }

  /** A worker that waits for an open request connects when it is made, and names a fresh socket. */
  lemma WantedIsConnected(s: System, side: Side, closes: bool)
    requires Wanted(ClientOf(s, side))
    requires if side == Requester then s.reqPlace.ReqAwaitOpen? else s.repPlace.RepAwaitOpen?
    ensures var now := |s.trace|;
            var work := if side == Requester then WorkRequester(true, Nothing, closes)
                else WorkResponder(true, Nothing, closes);
            var s' := Step(s, work);
            && s'.trace == s.trace + [Up(side, now)]
            && ClientOf(s', side) == ClientOf(s, side).(socketOpened := true)
            && s' == PutClient(s, side, ClientOf(s', side))
                       .(trace := s'.trace,
                         reqPlace := if side == Requester then ReqIdle(now) else s.reqPlace,
                         repPlace := if side == Responder then RepPolling(now) else s.repPlace)
  {
  }

  /** Without a request to close, a call of open() takes effect at once. */
  lemma OpenIsRequired(s: System, side: Side)
    requires ClientOf(s, side).requireSocketState.Close? && !(side == Requester && s.reqPlace.ReqPolling?)
    ensures var now := |s.trace|;
            var s' := Step(s, Caller(side, CallOpen));
            && ClientOf(s', side).requireSocketState.Open? && !ClientOf(s', side).socketOpened
            && ClientOf(s', side).waits == ClientOf(s, side).waits + {Opening(now)}
            && s'.trace == s.trace + [OpenCalled(side)]
            && s' == PutClient(s, side, ClientOf(s', side)).(trace := s'.trace)
  {
  }

  /** Nor does close(), when open is required. */
  lemma CloseIsRequired(s: System, side: Side)
    requires ClientOf(s, side).requireSocketState.Open? && !(side == Requester && s.reqPlace.ReqPolling?)
    ensures var now := |s.trace|;
            var s' := Step(s, Caller(side, CallClose));
            && ClientOf(s', side).requireSocketState.Close? && ClientOf(s', side).socketOpened
            && ClientOf(s', side).waits == ClientOf(s, side).waits + {Closing(now)}
            && s'.trace == s.trace + [CloseCalled(side)]
            && s' == PutClient(s, side, ClientOf(s', side)).(trace := s'.trace)
  {
  }

  /** What is required already is not called for again: open() of an open service and close() of a
      closed one return at once and change nothing. */
  lemma SecondCallChangesNothing(s: System, side: Side)
    ensures ClientOf(s, side).requireSocketState.Open? ==> Step(s, Caller(side, CallOpen)) == s
    ensures ClientOf(s, side).requireSocketState.Close? ==> Step(s, Caller(side, CallClose)) == s
  {
    assert s.trace + [] == s.trace;
  }

  /** The call that deactivates takes effect even while the requester polls. */
  lemma DeactivateIsHeeded(s: System, side: Side)
    ensures var s' := Step(s, Caller(side, Call.Deactivate));
            !ClientOf(s', side).runThd && s' == PutClient(s, side, ClientOf(s, side).(runThd := false))
  {
    assert s.trace + [] == s.trace;
  }

  /** A worker with nothing to do keeps its place and its socket. */
  lemma NothingToDo(s: System, ok: bool, closes: bool)
    ensures s.req.runThd && s.req.requireSocketState.Close? && s.reqPlace.ReqAwaitOpen? ==>
              Step(s, WorkRequester(ok, Nothing, closes)) == s
    ensures s.rep.runThd && s.rep.requireSocketState.Close? && s.repPlace.RepAwaitOpen? ==>
              Step(s, WorkResponder(ok, Nothing, closes)) == s
    ensures Wanted(s.req) && s.reqPlace.ReqIdle? && !s.req.sendMessage ==>
            Step(s, WorkRequester(ok, Nothing, closes)) == s
    ensures Wanted(s.rep) && s.repPlace.RepPolling? ==> Step(s, WorkResponder(ok, Nothing, closes)) == s
    ensures Wanted(s.rep) && s.repPlace.RepAnswering? && !s.rep.sendMessage ==>
              Step(s, WorkResponder(ok, Nothing, closes)) == s
  {
    assert s.trace + [] == s.trace && s.requests + {} == s.requests && s.replies + {} == s.replies;
  }

  /** A worker that is not wanted and has no message to transmit closes its socket. */
  lemma UnwantedWorkerLeaves(s: System, ok: bool)
    ensures !Wanted(s.req) && s.reqPlace.ReqIdle? && !s.req.sendMessage ==>
              var s' := Step(s, WorkRequester(ok, Nothing, true));
              s'.trace == s.trace + [Down(Requester, s.reqPlace.sock)] && s'.reqPlace == ReqAwaitOpen
                && !s'.req.socketOpened
    ensures !Wanted(s.rep) && (s.repPlace.RepPolling? || (s.repPlace.RepAnswering? && !s.rep.sendMessage)) ==>
              var s' := Step(s, WorkResponder(ok, Nothing, true));
              s'.trace == s.trace + [Down(Responder, s.repPlace.sock)] && s'.repPlace == RepAwaitOpen
                && !s'.rep.socketOpened
  {
  }

  // ---- The responder ----

  /** A request that arrives is handed over, and its answer is waited for; a message posted
      before is forgotten. */
  lemma RequestIsReceived(s: System, m: Request, ok: bool, closes: bool)
    requires s.repPlace.RepPolling? && m in s.requests
    ensures var sock, now := s.repPlace.sock, |s.trace|;
            var s' := Step(s, WorkResponder(ok, Arrived(m), closes));
            && s'.trace == s.trace + [Received(sock, m.from, m.sentAt, m.msg)]
            && s'.repPlace == RepAnswering(sock, m.from, m.sentAt, now) && s'.rep == s.rep.(sendMessage := false)
            && s'.requests == s.requests - {m} && s'.replies == s.replies
            && s'.req == s.req && s'.reqPlace == s.reqPlace
  {
  }

  /** A message posted while the responder is answering is transmitted to the asker, and the socket
      is kept exactly while the service is wanted. */
  lemma PostedAnswerIsSent(s: System, msg: string, incoming: Found<Request>, closes: bool)
    requires s.repPlace.RepAnswering? && s.rep.requireSocketState.Open?
    ensures var sock := s.repPlace.sock;
            var posted := Step(s, CallResponder(Post(msg)));
            var s' := Step(posted, WorkResponder(true, incoming, closes));
            && posted.trace == s.trace + [Posted(Responder, msg)]
            && |s'.trace| > |s.trace| + 1 && s'.trace[..|s.trace| + 2] == posted.trace + [Replied(sock, msg)]
            && s'.replies == s.replies + {Reply(s.repPlace.asker, s.repPlace.sentAt, s.repPlace.receivedAt,
                                                |s.trace|, |s.trace| + 1, msg)}
            && (s'.repPlace == RepPolling(sock) <==> Wanted(s.rep)) && !s'.rep.sendMessage
  {
  }

  // ---- Errors ----

  /** A library error takes the socket away and sends the worker back to its wait, from where it
      connects again while the service is wanted; a message it was sending is lost. */
  lemma ErrorGivesSocketUp(s: System, ok: bool, closes: bool)
    ensures s.reqPlace.ReqPolling? ==>
              Step(s, WorkRequester(ok, Fault, closes)) ==
              s.(reqPlace := ReqAwaitOpen, trace := s.trace + [Failed(Requester, s.reqPlace.sock)])
    ensures s.repPlace.RepPolling? ==>
              Step(s, WorkResponder(ok, Fault, closes)) ==
              s.(repPlace := RepAwaitOpen, trace := s.trace + [Failed(Responder, s.repPlace.sock)])
    ensures s.reqPlace.ReqIdle? && s.req.sendMessage ==>
              Step(s, WorkRequester(false, Nothing, closes)) ==
              s.(req := s.req.(sendMessage := false), reqPlace := ReqAwaitOpen,
                 trace := s.trace + [Failed(Requester, s.reqPlace.sock)])
    ensures s.repPlace.RepAnswering? && s.rep.sendMessage ==>
              Step(s, WorkResponder(false, Nothing, closes)) ==
              s.(rep := s.rep.(sendMessage := false), repPlace := RepAwaitOpen,
                 trace := s.trace + [Failed(Responder, s.repPlace.sock)])
  {
    assert s.requests + {} == s.requests && s.replies + {} == s.replies;
  }

  /** A connection that fails is tried again. */
  lemma FailedConnectionIsRetried(s: System, closes: bool)
    ensures Wanted(s.req) && s.reqPlace.ReqAwaitOpen? ==>
              Step(s, WorkRequester(false, Nothing, closes)) == s.(trace := s.trace + [ConnectFailed(Requester)])
    ensures Wanted(s.rep) && s.repPlace.RepAwaitOpen? ==>
              Step(s, WorkResponder(false, Nothing, closes)) == s.(trace := s.trace + [ConnectFailed(Responder)])
  {
  }

  /** A worker ends only when it was told to. */
  predicate EndedOnlyWhenTold(s: System) {
    (s.reqPlace.ReqExited? ==> !s.req.runThd) && (s.repPlace.RepExited? ==> !s.rep.runThd)
  }

  lemma StepEndsOnlyWhenTold(s: System, a: Action)
    requires EndedOnlyWhenTold(s)
    ensures EndedOnlyWhenTold(Step(s, a))
  {
    match a
    case WorkRequester(ok, answer, closes) => RequesterEndsOnlyWhenTold(s, ok, answer, closes);
    case WorkResponder(ok, incoming, closes) => ResponderEndsOnlyWhenTold(s, ok, incoming, closes);
    case _ =>
  }

  lemma RequesterEndsOnlyWhenTold(s: System, ok: bool, answer: Found<Reply>, closes: bool)
    requires EndedOnlyWhenTold(s)
    ensures EndedOnlyWhenTold(RequesterWork(s, ok, answer, closes))
  {
  }

  lemma ResponderEndsOnlyWhenTold(s: System, ok: bool, incoming: Found<Request>, closes: bool)
    requires EndedOnlyWhenTold(s)
    ensures EndedOnlyWhenTold(ResponderWork(s, ok, incoming, closes))
  {
  }

  /** In every run: no timeout, no error and no close ends a worker, only its deactivation. */
  lemma {:induction false} WorkersEndOnlyWhenTold(actions: seq<Action>)
    ensures EndedOnlyWhenTold(Run(actions))
  {
    if actions != [] {
      WorkersEndOnlyWhenTold(actions[..|actions| - 1]);
      StepEndsOnlyWhenTold(Run(actions[..|actions| - 1]), actions[|actions| - 1]);
    }
  }

  // ---- A whole exchange ----

  /** Both services are up and nothing is under way between them. */
  predicate Ready(s: System) {
    Wanted(s.req) && Wanted(s.rep) && s.reqPlace.ReqIdle? && s.repPlace.RepPolling?
  }

  /** What an exchange of question and answer adds to the events, from state `s` on. */
  function ExchangeOf(s: System, question: string, answer: string): seq<Event>
    requires Ready(s)
  {
    var n, asker, sock := |s.trace|, s.reqPlace.sock, s.repPlace.sock;
    [Posted(Requester, question), Sent(asker, question), Received(sock, Own(asker), n + 1, question),
     Posted(Responder, answer), Replied(sock, answer), Delivered(asker, answer)]
  }

  lemma Asked(s: System, question: string) returns (actions: seq<Action>, t: System)
    requires Ready(s)
    ensures t == RunFrom(s, actions)
    ensures var n, sock, asker := |s.trace|, s.repPlace.sock, s.reqPlace.sock;
            && t.trace == s.trace + ExchangeOf(s, question, "")[..3]
            && t.reqPlace == ReqPolling(asker, n + 1) && t.repPlace == RepAnswering(sock, Own(asker), n + 1, n + 2)
            && Wanted(t.req) && Wanted(t.rep)
  {
    var n, asker := |s.trace|, s.reqPlace.sock;
    PostIsAccepted(s, Requester, question);
    var s1 := Step(s, CallRequester(Post(question)));
    WaitingMessageIsSent(s1, Nothing, true);
    var s2 := Step(s1, WorkRequester(true, Nothing, true));
    var m := Request(Own(asker), n + 1, question);
    RequestIsReceived(s2, m, true, true);
    t := Step(s2, WorkResponder(true, Arrived(m), true));
    actions := [CallRequester(Post(question)), WorkRequester(true, Nothing, true),
                WorkResponder(true, Arrived(m), true)];
    ThreeSteps(s, actions[0], actions[1], actions[2]);
  }

  lemma ThreeSteps(s: System, a: Action, b: Action, c: Action)
    ensures RunFrom(s, [a, b, c]) == Step(Step(Step(s, a), b), c)
  {
    assert [a, b, c][1..] == [b, c] && [b, c][1..] == [c];
    assert RunFrom(Step(Step(s, a), b), [c]) == RunFrom(Step(Step(Step(s, a), b), c), []);
  }

  lemma AnsweredAndDelivered(s: System, question: string, answer: string) returns (actions: seq<Action>, t: System)
    requires s.reqPlace.ReqPolling? && s.repPlace.RepAnswering? && Wanted(s.req) && Wanted(s.rep)
    requires s.repPlace.asker == Own(s.reqPlace.sock)
    ensures t == RunFrom(s, actions)
    ensures t.trace == s.trace + [Posted(Responder, answer), Replied(s.repPlace.sock, answer),
                                  Delivered(s.reqPlace.sock, answer)]
    ensures t.reqPlace == ReqIdle(s.reqPlace.sock) && t.repPlace == RepPolling(s.repPlace.sock)
    ensures Wanted(t.req) && Wanted(t.rep)
  {
    var n := |s.trace|;
    PostedAnswerIsSent(s, answer, Nothing, true);
    var s1 := Step(s, CallResponder(Post(answer)));
    var s2 := Step(s1, WorkResponder(true, Nothing, true));
    assert s2.trace == s1.trace + [Replied(s.repPlace.sock, answer)];
    var reply := Reply(s.repPlace.asker, s.repPlace.sentAt, s.repPlace.receivedAt, n, n + 1, answer);
    ReplyIsDelivered(s2, reply, true, true);
    t := Step(s2, WorkRequester(true, Arrived(reply), true));
    actions := [CallResponder(Post(answer)), WorkResponder(true, Nothing, true),
                WorkRequester(true, Arrived(reply), true)];
    ThreeSteps(s, actions[0], actions[1], actions[2]);
  }

  lemma {:induction false} RunFromTwice(s: System, a: seq<Action>, b: seq<Action>)
    ensures RunFrom(s, a + b) == RunFrom(RunFrom(s, a), b)
    decreases |a|
  {
    if a == [] {
      assert a + b == b;
    } else {
      assert (a + b)[0] == a[0] && (a + b)[1..] == a[1..] + b;
      RunFromTwice(Step(s, a[0]), a[1..], b);
    }
  }

  /** Main: from every state in which both services are up, every question reaches the responder's
      callback and every answer the requester's, in six steps, and both are ready again. */
  lemma RoundTrip(s: System, question: string, answer: string) returns (actions: seq<Action>)
    requires Ready(s)
    ensures Ready(RunFrom(s, actions))
    ensures RunFrom(s, actions).trace == s.trace + ExchangeOf(s, question, answer)
  {
    var first, t := Asked(s, question);
    var second, u := AnsweredAndDelivered(t, question, answer);
    RunFromTwice(s, first, second);
    actions := first + second;
  }

  /** A run of the system, step by step from its start. */
  lemma {:induction false} RunIsRunFrom(actions: seq<Action>)
    ensures Run(actions) == RunFrom(Initial(), actions)
  {
    if actions != [] {
      var before, a := actions[..|actions| - 1], actions[|actions| - 1];
      RunIsRunFrom(before);
      RunFromAppend(Initial(), before, a);
      assert before + [a] == actions;
    }
  }

  /** From the start both services can be brought up: open() on each side, and one step of each
      worker. */
  lemma BothComeUp() returns (actions: seq<Action>)
    ensures Ready(RunFrom(Initial(), actions))
    ensures RunFrom(Initial(), actions).trace == [OpenCalled(Requester), OpenCalled(Responder), Up(Requester, 2),
                                                  Up(Responder, 3)]
  {
    var s0 := Initial();
    OpenIsRequired(s0, Requester);
    var s1 := Step(s0, CallRequester(CallOpen));
    OpenIsRequired(s1, Responder);
    var s2 := Step(s1, CallResponder(CallOpen));
    WantedIsConnected(s2, Requester, true);
    var s3 := Step(s2, WorkRequester(true, Nothing, true));
    WantedIsConnected(s3, Responder, true);
    var s4 := Step(s3, WorkResponder(true, Nothing, true));
    var first := [CallRequester(CallOpen), CallResponder(CallOpen), WorkRequester(true, Nothing, true)];
    ThreeSteps(s0, first[0], first[1], first[2]);
    RunFromAppend(s0, first, WorkResponder(true, Nothing, true));
    actions := first + [WorkResponder(true, Nothing, true)];
  }

  /** So for every question and answer there is a run from the start that ends with the delivery of
      the answer. */
  lemma DeliveringRun(question: string, answer: string) returns (actions: seq<Action>)
    ensures var trace := Run(actions).trace;
            trace != [] && trace[|trace| - 1].Delivered? && trace[|trace| - 1].msg == answer
  {
    var up := BothComeUp();
    var exchange := RoundTrip(RunFrom(Initial(), up), question, answer);
    RunFromTwice(Initial(), up, exchange);
    actions := up + exchange;
    RunIsRunFrom(actions);
  }

  // ---- The end ----

  /** Steps the workers still need to end once they are told to. */
  function RequesterLeft(place: ReqPlace): nat {
    match place
    case ReqExited => 0
    case ReqAwaitOpen => 1
    case ReqPolling(_, _) => 2
    case ReqIdle(_) => 3
  }

  function ResponderLeft(place: RepPlace): nat {
    match place
    case RepExited => 0
    case RepAwaitOpen => 1
    case RepPolling(_) => 3
    case RepAnswering(_, _, _, _) => 2
  }

  /** The poll reports nothing but what is there. */
  predicate Possible(s: System, a: Action) {
    match a
    case WorkRequester(_, Arrived(reply), _) => s.reqPlace.ReqPolling? ==>
      reply in s.replies && reply.to == Own(s.reqPlace.sock)
    case WorkResponder(_, Arrived(m), _) => s.repPlace.RepPolling? ==> m in s.requests
    case _ => true
  }

  /** A worker told to end gets nearer with every step of its own, and nobody else puts it back. */
  lemma DeactivatedGetsNearer(s: System, a: Action)
    requires Possible(s, a)
    ensures var s' := Step(s, a);
            && (!s.req.runThd ==>
                  !s'.req.runThd && RequesterLeft(s'.reqPlace)
                  + (if a.WorkRequester? && !s.reqPlace.ReqExited? then 1 else 0) <= RequesterLeft(s.reqPlace))
            && (!s.rep.runThd ==>
                  !s'.rep.runThd && ResponderLeft(s'.repPlace)
                  + (if a.WorkResponder? && !s.repPlace.RepExited? then 1 else 0) <= ResponderLeft(s.repPlace))
  {
    match a
    case WorkRequester(ok, answer, closes) => RequesterGetsNearer(s, ok, answer, closes);
    case WorkResponder(ok, incoming, closes) => ResponderGetsNearer(s, ok, incoming, closes);
    case _ =>
  }

  lemma RequesterGetsNearer(s: System, ok: bool, answer: Found<Reply>, closes: bool)
    requires Possible(s, WorkRequester(ok, answer, closes))
    ensures var s' := RequesterWork(s, ok, answer, closes);
            && s'.rep == s.rep && s'.repPlace == s.repPlace
            && (!s.req.runThd ==>
                  !s'.req.runThd && RequesterLeft(s'.reqPlace)
                    + (if s.reqPlace.ReqExited? then 0 else 1) <= RequesterLeft(s.reqPlace))
  {
  }

  lemma ResponderGetsNearer(s: System, ok: bool, incoming: Found<Request>, closes: bool)
    requires Possible(s, WorkResponder(ok, incoming, closes))
    ensures var s' := ResponderWork(s, ok, incoming, closes);
            && s'.req == s.req && s'.reqPlace == s.reqPlace
            && (!s.rep.runThd ==>
                  !s'.rep.runThd && ResponderLeft(s'.repPlace)
                    + (if s.repPlace.RepExited? then 0 else 1) <= ResponderLeft(s.repPlace))
  {
  }

  /** Every poll of the run reports what is there. */
  ghost predicate AllPossible(s: System, actions: seq<Action>)
    decreases |actions|
  {
    actions != [] ==> Possible(s, actions[0]) && AllPossible(Step(s, actions[0]), actions[1..])
  }

  predicate Ended(s: System, side: Side) {
    if side == Requester then s.reqPlace.ReqExited? else s.repPlace.RepExited?
  }

  function Left(s: System, side: Side): nat {
    if side == Requester then RequesterLeft(s.reqPlace) else ResponderLeft(s.repPlace)
  }

  predicate IsWorkOf(a: Action, side: Side) {
    if side == Requester then a.WorkRequester? else a.WorkResponder?
  }

  /** Steps that the worker of a side takes in a run. */
  function Moves(s: System, side: Side, actions: seq<Action>): nat
    decreases |actions|
  {
    if actions == [] then 0
    else
      (if IsWorkOf(actions[0], side) && !Ended(s, side) then 1 else 0) + Moves(Step(s, actions[0]), side, actions[1..])
  }

  /** In any interleaving a deactivated worker ends within three steps of its own. */
  lemma {:induction false} DeactivatedWorkerEnds(s: System, side: Side, actions: seq<Action>)
    requires !ClientOf(s, side).runThd && AllPossible(s, actions)
    ensures Moves(s, side, actions) + Left(RunFrom(s, actions), side) <= Left(s, side) <= 3
    ensures Moves(s, side, actions) >= 3 ==> Ended(RunFrom(s, actions), side)
    decreases |actions|
  {
    if actions != [] {
      DeactivatedGetsNearer(s, actions[0]);
      DeactivatedWorkerEnds(Step(s, actions[0]), side, actions[1..]);
    }
  }
}
