/** The sockets' own rules, from "The REQ Socket Type" and "The REP Socket Type" of ZeroMQ
    RFC 28/REQREP: sends and receives alternate. Both workers obey them on every socket, and
    never use a socket again after a timeout, an error or its closing. */
module ZeroMqSockets {
  import opened ZeroMqService
  import opened ZeroMqSystem

  /** `Engaged` owes the second half of the exchange; `Broken` means a rule was violated. */
  datatype Phase = Unborn | Ready | Engaged | Ended | Broken

  /** What an event does to one socket of one side. */
  function Next(side: Side, phase: Phase, e: Event, sock: nat): Phase {
    match e
    case Up(s, k) =>
      if s != side || k != sock then phase else if phase.Unborn? then Ready else Broken
    case Sent(k, _) =>
      if side != Requester || k != sock then phase else if phase.Ready? then Engaged else Broken
    case Delivered(k, _) =>
      if side != Requester || k != sock then phase else if phase.Engaged? then Ready else Broken
    case TimedOut(k) =>
      if side != Requester || k != sock then phase else if phase.Engaged? then Ended else Broken
    case Received(k, _, _, _) =>
      if side != Responder || k != sock then phase else if phase.Ready? then Engaged else Broken
    case Replied(k, _) =>
      if side != Responder || k != sock then phase else if phase.Engaged? then Ready else Broken
    case Failed(s, k) =>
      if s != side || k != sock then phase else if phase.Unborn? || phase.Broken? then Broken else Ended
    case Down(s, k) =>
      if s != side || k != sock then phase else if phase.Unborn? || phase.Broken? then Broken else Ended
    case _ => phase
  }

  function Advance(side: Side, phase: Phase, events: seq<Event>, sock: nat): Phase {
    if events == [] then phase
    else Next(side, Advance(side, phase, events[..|events| - 1], sock), events[|events| - 1], sock)
  }

  function PhaseOf(side: Side, trace: seq<Event>, sock: nat): Phase {
    Advance(side, Unborn, trace, sock)
  }

  lemma {:induction false} AdvanceAppend(side: Side, phase: Phase, a: seq<Event>, b: seq<Event>, sock: nat)
    ensures Advance(side, phase, a + b, sock) == Advance(side, Advance(side, phase, a, sock), b, sock)
  {
    if b == [] {
      assert a + b == a;
    } else {
      AdvanceAppend(side, phase, a, b[..|b| - 1], sock);
      assert (a + b)[..|a + b| - 1] == a + b[..|b| - 1];
    }
  }

  lemma AdvanceByOne(side: Side, phase: Phase, e: Event, sock: nat)
    ensures Advance(side, phase, [e], sock) == Next(side, phase, e, sock)
  {
    assert [e][..0] == [];
  }

  // ---- The invariant ----

  /** No rule broken, and sockets not yet named have no history. */
  ghost predicate Sound(side: Side, trace: seq<Event>) {
    && (forall k :: PhaseOf(side, trace, k) != Broken)
    && (forall k :: k >= |trace| ==> PhaseOf(side, trace, k) == Unborn)
  }

  /** The live socket of each worker is where its worker takes it to be. */
  ghost predicate SocketsOk(s: System) {
    && Sound(Requester, s.trace)
    && Sound(Responder, s.trace)
    && (s.reqPlace.ReqIdle? ==> PhaseOf(Requester, s.trace, s.reqPlace.sock) == Ready)
    && (s.reqPlace.ReqPolling? ==> PhaseOf(Requester, s.trace, s.reqPlace.sock) == Engaged)
    && (s.repPlace.RepPolling? ==> PhaseOf(Responder, s.trace, s.repPlace.sock) == Ready)
    && (s.repPlace.RepAnswering? ==> PhaseOf(Responder, s.trace, s.repPlace.sock) == Engaged)
  }

  /** Not an event of any socket of the side. */
  predicate Unrelated(side: Side, e: Event) {
    match e
    case Up(s, _) => s != side
    case Failed(s, _) => s != side
    case Down(s, _) => s != side
    case Sent(_, _) => side != Requester
    case Delivered(_, _) => side != Requester
    case TimedOut(_) => side != Requester
    case Received(_, _, _, _) => side != Responder
    case Replied(_, _) => side != Responder
    case _ => true
  }

  lemma {:induction false} UnrelatedEvents(side: Side, phase: Phase, events: seq<Event>, sock: nat)
    requires forall i :: 0 <= i < |events| ==> Unrelated(side, events[i])
    ensures Advance(side, phase, events, sock) == phase
  {
    if events != [] {
      UnrelatedEvents(side, phase, events[..|events| - 1], sock);
    }
  }

  lemma UnrelatedKeeps(side: Side, trace: seq<Event>, events: seq<Event>)
    requires Sound(side, trace) && forall i :: 0 <= i < |events| ==> Unrelated(side, events[i])
    ensures Sound(side, trace + events)
    ensures forall k :: PhaseOf(side, trace + events, k) == PhaseOf(side, trace, k)
  {
    forall k ensures PhaseOf(side, trace + events, k) == PhaseOf(side, trace, k) {
      AdvanceAppend(side, Unborn, trace, events, k);
      UnrelatedEvents(side, PhaseOf(side, trace, k), events, k);
    }
  }

  /** One event that concerns at most the socket `sock` of the side. */
  lemma OneEventKeeps(side: Side, trace: seq<Event>, e: Event, sock: nat)
    requires Sound(side, trace) && sock <= |trace|
    requires Unrelated(side, e) || (SocketOf(e) == sock && Next(side, PhaseOf(side, trace, sock), e, sock) != Broken)
    ensures Sound(side, trace + [e])
    ensures PhaseOf(side, trace + [e], sock) == Next(side, PhaseOf(side, trace, sock), e, sock)
  {
    forall k ensures PhaseOf(side, trace + [e], k) == Next(side, PhaseOf(side, trace, k), e, k) {
      AdvanceAppend(side, Unborn, trace, [e], k);
      AdvanceByOne(side, PhaseOf(side, trace, k), e, k);
    }
  }

  function SocketOf(e: Event): nat {
    match e
    case Up(_, k) => k
    case Failed(_, k) => k
    case Down(_, k) => k
    case Sent(k, _) => k
    case Delivered(k, _) => k
    case TimedOut(k) => k
    case Received(k, _, _, _) => k
    case Replied(k, _) => k
    case _ => 0
  }

  /** A worker's step adds at most two events, all of its socket. */
  lemma StepEventsKeep(side: Side, trace: seq<Event>, events: seq<Event>, sock: nat)
    requires Sound(side, trace) && sock <= |trace| && |events| <= 2
    requires forall i :: 0 <= i < |events| ==> Unrelated(side, events[i]) || SocketOf(events[i]) == sock
    requires |events| >= 1 ==> Next(side, PhaseOf(side, trace, sock), events[0], sock) != Broken
    requires |events| == 2 ==>
               Next(side, Next(side, PhaseOf(side, trace, sock), events[0], sock), events[1], sock) != Broken
    ensures Sound(side, trace + events)
    ensures PhaseOf(side, trace + events, sock) ==
            (if |events| == 0 then PhaseOf(side, trace, sock)
             else if |events| == 1 then Next(side, PhaseOf(side, trace, sock), events[0], sock)
             else Next(side, Next(side, PhaseOf(side, trace, sock), events[0], sock), events[1], sock))
  {
    if |events| == 0 {
      assert trace + events == trace;
    } else {
      OneEventKeeps(side, trace, events[0], sock);
      if |events| == 1 {
        assert trace + events == trace + [events[0]];
      } else {
        OneEventKeeps(side, trace + [events[0]], events[1], sock);
        assert trace + events == trace + [events[0]] + [events[1]];
      }
    }
  }

  // ---- Every step keeps it ----

  lemma CallsKeep(s: System, side: Side, c: Client, call: Call)
    requires SocketsOk(s)
    ensures var trace := s.trace + CallStep(side, c, call, |s.trace|).events;
            SocketsOk(s.(trace := trace))
  {
    var events := CallStep(side, c, call, |s.trace|).events;
    UnrelatedKeeps(Requester, s.trace, events);
    UnrelatedKeeps(Responder, s.trace, events);
  }

  lemma RequesterResultKeeps(s: System, r: ReqResult, sock: nat)
    requires SocketsOk(s) && sock <= |s.trace| && |r.events| <= 2
    requires forall i :: 0 <= i < |r.events| ==> Unrelated(Responder, r.events[i])
    requires forall i :: 0 <= i < |r.events| ==> Unrelated(Requester, r.events[i]) || SocketOf(r.events[i]) == sock
    requires var p := PhaseOf(Requester, s.trace, sock);
             var p1 := if |r.events| >= 1 then Next(Requester, p, r.events[0], sock) else p;
             var p2 := if |r.events| == 2 then Next(Requester, p1, r.events[1], sock) else p1;
             && p1 != Broken && p2 != Broken
             && (r.place.ReqIdle? || r.place.ReqPolling? ==> r.place.sock == sock)
             && (r.place.ReqIdle? ==> p2 == Ready) && (r.place.ReqPolling? ==> p2 == Engaged)
    ensures SocketsOk(PutReq(s, r))
  {
    UnrelatedKeeps(Responder, s.trace, r.events);
    StepEventsKeep(Requester, s.trace, r.events, sock);
  }

  lemma PollingRequesterKeeps(s: System, outcome: ReqOutcome, closes: bool)
    requires SocketsOk(s) && s.reqPlace.ReqPolling? && s.reqPlace.sock < |s.trace|
    ensures SocketsOk(PutReq(s, ReqFinish(s.req, s.reqPlace.sock, outcome, closes)))
  {
    RequesterResultKeeps(s, ReqFinish(s.req, s.reqPlace.sock, outcome, closes), s.reqPlace.sock);
  }

  lemma RequesterWorkKeeps(s: System, ok: bool, answer: Found<Reply>, closes: bool)
    requires SocketsOk(s)
    ensures SocketsOk(RequesterWork(s, ok, answer, closes))
  {
    match s.reqPlace
    case ReqAwaitOpen => RequesterResultKeeps(s, ReqConnect(s.req, ok, |s.trace|), |s.trace|);
    case ReqIdle(sock) => RequesterResultKeeps(s, ReqServe(s.req, sock, ok, closes, |s.trace|), sock);
    case ReqPolling(sock, _) =>
      PollingRequesterKeeps(s, if answer.Arrived? then GotReply(answer.message.msg)
                               else if answer.Nothing? then NoReply else ReqError, closes);
    case ReqExited =>
  }

  lemma ResponderResultKeeps(s: System, r: RepResult, sock: nat)
    requires SocketsOk(s) && sock <= |s.trace| && |r.events| <= 2
    requires forall i :: 0 <= i < |r.events| ==> Unrelated(Requester, r.events[i])
    requires forall i :: 0 <= i < |r.events| ==> Unrelated(Responder, r.events[i]) || SocketOf(r.events[i]) == sock
    requires var p := PhaseOf(Responder, s.trace, sock);
             var p1 := if |r.events| >= 1 then Next(Responder, p, r.events[0], sock) else p;
             var p2 := if |r.events| == 2 then Next(Responder, p1, r.events[1], sock) else p1;
             && p1 != Broken && p2 != Broken
             && (r.place.RepPolling? || r.place.RepAnswering? ==> r.place.sock == sock)
             && (r.place.RepPolling? ==> p2 == Ready) && (r.place.RepAnswering? ==> p2 == Engaged)
    ensures SocketsOk(PutRep(s, r))
  {
    UnrelatedKeeps(Requester, s.trace, r.events);
    StepEventsKeep(Responder, s.trace, r.events, sock);
  }

  lemma PollingResponderKeeps(s: System, outcome: RepOutcome, closes: bool)
    requires SocketsOk(s) && s.repPlace.RepPolling? && s.repPlace.sock < |s.trace|
    ensures SocketsOk(PutRep(s, RepPoll(s.rep, s.repPlace.sock, outcome, closes, |s.trace|)))
  {
    ResponderResultKeeps(s, RepPoll(s.rep, s.repPlace.sock, outcome, closes, |s.trace|), s.repPlace.sock);
  }

  lemma AnsweringResponderKeeps(s: System, ok: bool, closes: bool)
    requires SocketsOk(s) && s.repPlace.RepAnswering? && s.repPlace.sock < |s.trace|
    ensures SocketsOk(PutRep(s, RepAnswer(s.rep, s.repPlace, ok, closes)))
  {
    ResponderResultKeeps(s, RepAnswer(s.rep, s.repPlace, ok, closes), s.repPlace.sock);
  }

  lemma ResponderWorkKeeps(s: System, ok: bool, incoming: Found<Request>, closes: bool)
    requires SocketsOk(s)
    ensures SocketsOk(ResponderWork(s, ok, incoming, closes))
  {
    match s.repPlace
    case RepAwaitOpen => ResponderResultKeeps(s, RepConnect(s.rep, ok, |s.trace|), |s.trace|);
    case RepPolling(sock) =>
      PollingResponderKeeps(s, if incoming.Arrived?
                            then GotRequest(incoming.message.from, incoming.message.sentAt, incoming.message.msg)
                               else if incoming.Nothing? then NoRequest else RepError, closes);
    case RepAnswering(_, _, _, _) => AnsweringResponderKeeps(s, ok, closes);
    case RepExited =>
  }

  lemma StepKeepsSockets(s: System, a: Action)
    requires SocketsOk(s)
    ensures SocketsOk(Step(s, a))
  {
    match a
    case CallRequester(call) => CallsKeep(s, Requester, s.req, call);
    case CallResponder(call) => CallsKeep(s, Responder, s.rep, call);
    case WorkRequester(ok, answer, closes) => RequesterWorkKeeps(s, ok, answer, closes);
    case WorkResponder(ok, incoming, closes) => ResponderWorkKeeps(s, ok, incoming, closes);
    case ForeignRequest(client, text) =>
      UnrelatedKeeps(Requester, s.trace, [ForeignSent(client, text)]);
      UnrelatedKeeps(Responder, s.trace, [ForeignSent(client, text)]);
    case LoseRequest(_) =>
    case LoseReply(_) =>
  }

  /** In every run every socket of both sides keeps to its rules: it is used only once up,
      sends and receives alternate, and nothing follows a timeout, an error or a close. */
  lemma {:induction false} SocketsObeyTheirRules(actions: seq<Action>)
    ensures SocketsOk(Run(actions))
  {
    if actions != [] {
      SocketsObeyTheirRules(actions[..|actions| - 1]);
      StepKeepsSockets(Run(actions[..|actions| - 1]), actions[|actions| - 1]);
    }
  }

  // ---- What the rules say about two uses of one socket ----

  /** The first half of an exchange: a request sent, a request received. */
  predicate Begins(side: Side, e: Event, sock: nat) {
    if side == Requester then e.Sent? && e.sock == sock else e.Received? && e.sock == sock
  }

  /** The second half: a reply delivered, a reply sent. */
  predicate Completes(side: Side, e: Event, sock: nat) {
    if side == Requester then e.Delivered? && e.sock == sock else e.Replied? && e.sock == sock
  }

  predicate Terminates(side: Side, e: Event, sock: nat) {
    || ((e.Failed? || e.Down?) && e.side == side && e.sock == sock)
    || (side == Requester && e.TimedOut? && e.sock == sock)
  }

  lemma {:induction false} BrokenStaysBroken(side: Side, trace: seq<Event>, sock: nat, n: nat)
    requires n <= |trace| && PhaseOf(side, trace[..n], sock) == Broken
    ensures PhaseOf(side, trace, sock) == Broken
    decreases |trace| - n
  {
    if n < |trace| {
      assert trace[..n + 1][..n] == trace[..n];
      BrokenStaysBroken(side, trace, sock, n + 1);
    } else {
      assert trace[..n] == trace;
    }
  }

  /** From a beginning on, a socket without a completion stays engaged or has ended. */
  lemma {:induction false} EngagedUntilCompleted(side: Side, trace: seq<Event>, sock: nat, i: nat, n: nat)
    requires i < n <= |trace| && PhaseOf(side, trace, sock) != Broken
    requires Begins(side, trace[i], sock) || Terminates(side, trace[i], sock)
    requires forall k :: i < k < n ==> !Completes(side, trace[k], sock)
    ensures PhaseOf(side, trace[..n], sock) in {Engaged, Ended}
    ensures Terminates(side, trace[i], sock) ==> PhaseOf(side, trace[..n], sock) == Ended
  {
    assert trace[..n][..n - 1] == trace[..n - 1];
    if PhaseOf(side, trace[..n], sock) == Broken {
      BrokenStaysBroken(side, trace, sock, n);
    }
    if n > i + 1 {
      EngagedUntilCompleted(side, trace, sock, i, n - 1);
    }
  }

  lemma TraceAlternates(side: Side, trace: seq<Event>, sock: nat, i: nat, j: nat)
    requires PhaseOf(side, trace, sock) != Broken
    requires i < j < |trace| && Begins(side, trace[i], sock) && Begins(side, trace[j], sock)
    ensures !forall m :: i < m < j ==> !Completes(side, trace[m], sock)
  {
    if forall m :: i < m < j ==> !Completes(side, trace[m], sock) {
      EngagedUntilCompleted(side, trace, sock, i, j);
      BreaksRules(side, trace, sock, j);
    }
  }

  /** Beginning an exchange on a socket that is engaged or has ended breaks the rules, and so
      does completing one on a socket that has ended. */
  lemma BreaksRules(side: Side, trace: seq<Event>, sock: nat, j: nat)
    requires j < |trace|
    requires var phase := PhaseOf(side, trace[..j], sock);
             || (Begins(side, trace[j], sock) && phase in {Engaged, Ended})
             || (Completes(side, trace[j], sock) && phase == Ended)
    ensures PhaseOf(side, trace, sock) == Broken
  {
    assert trace[..j + 1][..j] == trace[..j];
    BrokenStaysBroken(side, trace, sock, j + 1);
  }

  lemma {:induction false} TraceEnds(side: Side, trace: seq<Event>, sock: nat, i: nat, j: nat)
    requires PhaseOf(side, trace, sock) != Broken
    requires i < j < |trace| && Terminates(side, trace[i], sock)
    ensures !Begins(side, trace[j], sock) && !Completes(side, trace[j], sock)
  {
    forall k | i < k < j ensures !Completes(side, trace[k], sock) {
      TraceEnds(side, trace, sock, i, k);
    }
    EngagedUntilCompleted(side, trace, sock, i, j);
    if Begins(side, trace[j], sock) || Completes(side, trace[j], sock) {
      BreaksRules(side, trace, sock, j);
    }
  }

  /** Two requests sent on one socket have a delivered reply between them, two requests
      received on one socket have a reply sent between them, in every run. */
  lemma ExchangesAlternate(actions: seq<Action>, side: Side, sock: nat, i: nat, j: nat) returns (k: nat)
    requires var trace := Run(actions).trace;
             i < j < |trace| && Begins(side, trace[i], sock) && Begins(side, trace[j], sock)
    ensures i < k < j && Completes(side, Run(actions).trace[k], sock)
  {
    SocketsObeyTheirRules(actions);
    var trace := Run(actions).trace;
    TraceAlternates(side, trace, sock, i, j);
    k :| i < k < j && Completes(side, trace[k], sock);
  }

  /** A socket that timed out, failed or was closed carries no further exchange. */
  lemma EndedSocketIsNeverUsed(actions: seq<Action>, side: Side, sock: nat, i: nat, j: nat)
    requires var trace := Run(actions).trace; i < j < |trace| && Terminates(side, trace[i], sock)
    ensures var e := Run(actions).trace[j]; !Begins(side, e, sock) && !Completes(side, e, sock)
  {
    SocketsObeyTheirRules(actions);
    TraceEnds(side, Run(actions).trace, sock, i, j);
  }
}
