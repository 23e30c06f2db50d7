/** open() and close() against the workers, for any number of calling threads: unless a call of
    the other kind came in between, open() returns only after the worker brought a socket up and
    close() only after it brought its socket down. */
module ZeroMqHandshake {
  import opened ZeroMqService
  import opened ZeroMqSystem

  /** An event of the kind after position `k`. */
  ghost predicate Since(trace: seq<Event>, kind: Kind, k: nat) {
    exists i :: k < i < |trace| && IsA(trace[i], kind)
  }

  /** What a waiting call stands for, as long as no call of the other kind followed it. */
  ghost predicate WaitOk(trace: seq<Event>, side: Side, c: Client, w: Wait) {
    && w.calledAt < |trace|
    && match w
       case Opening(k) =>
         && trace[k] == OpenCalled(side)
         && (Clear(trace, CloseCall(side), k, |trace|) ==>
               && c.requireSocketState.Open?
               && Clear(trace, OpenCall(side), k, |trace|)
               && (c.socketOpened ==> Since(trace, Connection(side), k)))
       case Closing(k) =>
         && trace[k] == CloseCalled(side)
         && (Clear(trace, OpenCall(side), k, |trace|) ==>
               && c.requireSocketState.Close?
               && Clear(trace, CloseCall(side), k, |trace|)
               && Clear(trace, Connection(side), k, |trace|)
               && (!c.socketOpened ==> Since(trace, Closure(side), k)))
  }

  /** The waits of all threads, and the required state, as the trace tells them. */
  ghost predicate ControlOk(trace: seq<Event>, side: Side, c: Client) {
    && (c.requireSocketState.Open? ==>
          && c.openedAt < |trace| && trace[c.openedAt] == OpenCalled(side)
          && Clear(trace, CloseCall(side), c.openedAt, |trace|))
    && forall w :: w in c.waits ==> WaitOk(trace, side, c, w)
  }

  lemma SinceGrows(trace: seq<Event>, events: seq<Event>, kind: Kind, k: nat)
    requires Since(trace, kind, k) || (k < |trace| && exists i :: 0 <= i < |events| && IsA(events[i], kind))
    ensures Since(trace + events, kind, k)
  {
    var all := trace + events;
    if Since(trace, kind, k) {
      var i :| k < i < |trace| && IsA(trace[i], kind);
      assert IsA(all[i], kind);
    } else {
      var i :| 0 <= i < |events| && IsA(events[i], kind);
      assert IsA(all[|trace| + i], kind);
    }
  }

  /** What a worker's step, or any step of the other side, may do to this side's control. */
  ghost predicate WorkerMove(events: seq<Event>, side: Side, c: Client, c': Client) {
    && c'.waits == c.waits && c'.requireSocketState == c.requireSocketState && c'.openedAt == c.openedAt
    && Quiet(events, OpenCall(side)) && Quiet(events, CloseCall(side))
    && (c.requireSocketState.Close? ==> Quiet(events, Connection(side)))
    && (c'.socketOpened && !c.socketOpened ==> exists i :: 0 <= i < |events| && IsA(events[i], Connection(side)))
    && (!c'.socketOpened && c.socketOpened ==> exists i :: 0 <= i < |events| && IsA(events[i], Closure(side)))
  }

  /** A longer trace is clear only if the shorter one was. */
  lemma ClearBefore(trace: seq<Event>, events: seq<Event>, kind: Kind, k: nat)
    requires k < |trace|
    ensures Clear(trace + events, kind, k, |trace + events|) ==> Clear(trace, kind, k, |trace|)
  {
    assert forall i :: 0 <= i < |trace| ==> (trace + events)[i] == trace[i];
  }

  lemma WaitKept(trace: seq<Event>, events: seq<Event>, side: Side, c: Client, c': Client, w: Wait)
    requires WaitOk(trace, side, c, w) && WorkerMove(events, side, c, c')
    ensures WaitOk(trace + events, side, c', w)
  {
    ClearBefore(trace, events, CloseCall(side), w.calledAt);
    ClearBefore(trace, events, OpenCall(side), w.calledAt);
    match w
    case Opening(k) =>
      if Clear(trace, CloseCall(side), k, |trace|) {
        ClearGrows(trace, events, OpenCall(side), k);
        if c'.socketOpened {
          SinceGrows(trace, events, Connection(side), k);
        }
      }
    case Closing(k) =>
      if Clear(trace, OpenCall(side), k, |trace|) {
        ClearGrows(trace, events, CloseCall(side), k);
        ClearGrows(trace, events, Connection(side), k);
        if !c'.socketOpened {
          SinceGrows(trace, events, Closure(side), k);
        }
      }
  }

  lemma WorkerMoveKeeps(trace: seq<Event>, events: seq<Event>, side: Side, c: Client, c': Client)
    requires ControlOk(trace, side, c) && WorkerMove(events, side, c, c')
    ensures ControlOk(trace + events, side, c')
  {
    if c.requireSocketState.Open? {
      ClearGrows(trace, events, CloseCall(side), c.openedAt);
    }
    forall w | w in c'.waits ensures WaitOk(trace + events, side, c', w) {
      WaitKept(trace, events, side, c, c', w);
    }
  }

  /** A call that turns the required state over: older waits are no longer clear. */
  lemma TurnKeeps(trace: seq<Event>, side: Side, c: Client, call: Call)
    requires ControlOk(trace, side, c)
    requires if c.requireSocketState.Close? then call.CallOpen? else call.CallClose?
    ensures var d := CallStep(side, c, call, |trace|); ControlOk(trace + d.events, side, d.c)
  {
    var d := CallStep(side, c, call, |trace|);
    var all := trace + d.events;
    var now := |trace|;
    assert all[now] == d.events[0];
    forall w | w in c.waits ensures WaitOk(all, side, d.c, w) {
      ClearBefore(trace, d.events, CloseCall(side), w.calledAt);
      ClearBefore(trace, d.events, OpenCall(side), w.calledAt);
      assert IsA(all[now], if call.CallOpen? then OpenCall(side) else CloseCall(side));
    }
  }

  lemma CallKeeps(trace: seq<Event>, side: Side, c: Client, call: Call)
    requires ControlOk(trace, side, c)
    ensures var d := CallStep(side, c, call, |trace|); ControlOk(trace + d.events, side, d.c)
  {
    var d := CallStep(side, c, call, |trace|);
    if if c.requireSocketState.Close? then call.CallOpen? else call.CallClose? {
      TurnKeeps(trace, side, c, call);
    } else {
      WorkerMoveKeeps(trace, d.events, side, c.(waits := d.c.waits), d.c);
    }
  }

  lemma ConnectMove(side: Side, c: Client, ok: bool, now: nat)
    ensures match ConnectStep(side, c, ok, now)
            case Connect(c', sock, events) => WorkerMove(events, side, c, c')
            case Retry(events) => WorkerMove(events, side, c, c)
            case _ => true
  {
    var step := ConnectStep(side, c, ok, now);
    if step.Connect? {
      assert IsA(step.events[0], Connection(side));
    }
  }

  /** Closing the socket after some other events of the round. */
  lemma LeaveMove(events: seq<Event>, side: Side, c: Client, c0: Client, sock: nat, closes: bool)
    requires WorkerMove(events, side, c, c0) && c0.socketOpened == c.socketOpened
    ensures var left := Leave(side, c0, sock, closes); WorkerMove(events + left.events, side, c, left.c)
  {
    var left := Leave(side, c0, sock, closes);
    var all := events + left.events;
    assert all[|events|] == left.events[0];
    if closes {
      assert IsA(all[|events|], Closure(side));
    }
  }

  /** A move of one side's worker that the other side's control does not notice. */
  ghost predicate MoveOf(side: Side, other: Side, events: seq<Event>, c: Client, c': Client) {
    && WorkerMove(events, side, c, c')
    && Quiet(events, OpenCall(other)) && Quiet(events, CloseCall(other)) && Quiet(events, Connection(other))
  }

  lemma ReqConnectMove(c: Client, ok: bool, now: nat)
    ensures var r := ReqConnect(c, ok, now); MoveOf(Requester, Responder, r.events, c, r.c)
  {
    ConnectMove(Requester, c, ok, now);
  }

  lemma ReqServeMove(c: Client, sock: nat, sends: bool, closes: bool, now: nat)
    ensures var r := ReqServe(c, sock, sends, closes, now); MoveOf(Requester, Responder, r.events, c, r.c)
  {
    LeaveMove([], Requester, c, c, sock, closes);
  }

  lemma ReqFinishMove(c: Client, sock: nat, outcome: ReqOutcome, closes: bool)
    ensures var r := ReqFinish(c, sock, outcome, closes); MoveOf(Requester, Responder, r.events, c, r.c)
  {
    LeaveMove([if outcome.GotReply? then Delivered(sock, outcome.msg) else TimedOut(sock)], Requester, c, c, sock,
              closes);
  }

  lemma RequesterMove(s: System, ok: bool, answer: Found<Reply>, closes: bool) returns (events: seq<Event>)
    ensures var s' := RequesterWork(s, ok, answer, closes);
            s'.trace == s.trace + events && s'.rep == s.rep && MoveOf(Requester, Responder, events, s.req, s'.req)
  {
    events := [];
    assert s.trace == s.trace + events;
    match s.reqPlace
    case ReqAwaitOpen =>
      ReqConnectMove(s.req, ok, |s.trace|);
      events := ReqConnect(s.req, ok, |s.trace|).events;
    case ReqIdle(sock) =>
      ReqServeMove(s.req, sock, ok, closes, |s.trace|);
      events := ReqServe(s.req, sock, ok, closes, |s.trace|).events;
    case ReqPolling(sock, _) =>
      var outcome := if answer.Arrived? then GotReply(answer.message.msg)
                     else if answer.Nothing? then NoReply else ReqError;
      ReqFinishMove(s.req, sock, outcome, closes);
      if !answer.Arrived? || (answer.message in s.replies && answer.message.to == Own(sock)) {
        events := ReqFinish(s.req, sock, outcome, closes).events;
      }
    case ReqExited =>
  }

  lemma RepConnectMove(c: Client, ok: bool, now: nat)
    ensures var r := RepConnect(c, ok, now); MoveOf(Responder, Requester, r.events, c, r.c)
  {
    ConnectMove(Responder, c, ok, now);
  }

  lemma RepPollMove(c: Client, sock: nat, outcome: RepOutcome, closes: bool, now: nat)
    ensures var r := RepPoll(c, sock, outcome, closes, now); MoveOf(Responder, Requester, r.events, c, r.c)
  {
    LeaveMove([], Responder, c, c, sock, closes);
  }

  lemma RepTailMove(c: Client, c0: Client, sock: nat, closes: bool, events: seq<Event>)
    requires c0 == c.(sendMessage := c0.sendMessage) && (events == [] || events == [Replied(sock, c.messageToSend)])
    ensures var r := RepTail(c0, sock, closes, events); MoveOf(Responder, Requester, r.events, c, r.c)
  {
    LeaveMove(events, Responder, c, c0, sock, closes);
  }

  lemma RepAnswerMove(c: Client, place: RepPlace, sends: bool, closes: bool)
    requires place.RepAnswering?
    ensures var r := RepAnswer(c, place, sends, closes); MoveOf(Responder, Requester, r.events, c, r.c)
  {
    RepTailMove(c, c, place.sock, closes, []);
    RepTailMove(c, c.(sendMessage := false), place.sock, closes, [Replied(place.sock, c.messageToSend)]);
  }

  lemma ResponderMove(s: System, ok: bool, incoming: Found<Request>, closes: bool) returns (events: seq<Event>)
    ensures var s' := ResponderWork(s, ok, incoming, closes);
            s'.trace == s.trace + events && s'.req == s.req && MoveOf(Responder, Requester, events, s.rep, s'.rep)
  {
    events := [];
    assert s.trace == s.trace + events;
    match s.repPlace
    case RepAwaitOpen =>
      RepConnectMove(s.rep, ok, |s.trace|);
      events := RepConnect(s.rep, ok, |s.trace|).events;
    case RepPolling(sock) =>
      var outcome := if incoming.Arrived?
                     then GotRequest(incoming.message.from, incoming.message.sentAt, incoming.message.msg)
                     else if incoming.Nothing? then NoRequest else RepError;
      RepPollMove(s.rep, sock, outcome, closes, |s.trace|);
      if !incoming.Arrived? || incoming.message in s.requests {
        events := RepPoll(s.rep, sock, outcome, closes, |s.trace|).events;
      }
    case RepAnswering(_, _, _, _) =>
      RepAnswerMove(s.rep, s.repPlace, ok, closes);
      events := RepAnswer(s.rep, s.repPlace, ok, closes).events;
    case RepExited =>
  }

  ghost predicate BothOk(s: System) {
    ControlOk(s.trace, Requester, s.req) && ControlOk(s.trace, Responder, s.rep)
  }

  lemma OtherSideCall(trace: seq<Event>, side: Side, other: Side, c: Client, d: Client, call: Call)
    requires side != other && ControlOk(trace, side, c)
    ensures ControlOk(trace + CallStep(other, d, call, |trace|).events, side, c)
  {
    WorkerMoveKeeps(trace, CallStep(other, d, call, |trace|).events, side, c, c);
  }

  lemma StepKeepsControl(s: System, a: Action)
    requires BothOk(s)
    ensures BothOk(Step(s, a))
  {
    match a
    case CallRequester(call) =>
      CallKeeps(s.trace, Requester, s.req, call);
      OtherSideCall(s.trace, Responder, Requester, s.rep, s.req, call);
    case CallResponder(call) =>
      CallKeeps(s.trace, Responder, s.rep, call);
      OtherSideCall(s.trace, Requester, Responder, s.req, s.rep, call);
    case WorkRequester(ok, answer, closes) =>
      var events := RequesterMove(s, ok, answer, closes);
      WorkerMoveKeeps(s.trace, events, Requester, s.req, Step(s, a).req);
      WorkerMoveKeeps(s.trace, events, Responder, s.rep, s.rep);
    case WorkResponder(ok, incoming, closes) =>
      var events := ResponderMove(s, ok, incoming, closes);
      WorkerMoveKeeps(s.trace, events, Responder, s.rep, Step(s, a).rep);
      WorkerMoveKeeps(s.trace, events, Requester, s.req, s.req);
    case ForeignRequest(client, text) =>
      WorkerMoveKeeps(s.trace, [ForeignSent(client, text)], Requester, s.req, s.req);
      WorkerMoveKeeps(s.trace, [ForeignSent(client, text)], Responder, s.rep, s.rep);
    case LoseRequest(_) =>
    case LoseReply(_) =>
  }

  lemma {:induction false} ControlReachable(actions: seq<Action>)
    ensures BothOk(Run(actions))
  {
    if actions != [] {
      ControlReachable(actions[..|actions| - 1]);
      StepKeepsControl(Run(actions[..|actions| - 1]), actions[|actions| - 1]);
    }
  }

  // ---- What the returns mean ----

  function ClientOf(s: System, side: Side): Client {
    if side == Requester then s.req else s.rep
  }

  /** A return or a new connection is the first event of its step, made while the client's
      state allowed it. */
  lemma WhoReturns(s: System, a: Action, i: nat)
    requires |s.trace| <= i < |Step(s, a).trace|
    ensures var e := Step(s, a).trace[i];
            && s.trace <= Step(s, a).trace
            && (e.OpenReturned? ==>
                  i == |s.trace| && var c := ClientOf(s, e.side); Opening(e.calledAt) in c.waits && c.socketOpened)
            && (e.CloseReturned? ==>
                  i == |s.trace| && var c := ClientOf(s, e.side); Closing(e.calledAt) in c.waits && !c.socketOpened)
            && (e.Up? ==> i == |s.trace| && ClientOf(s, e.side).requireSocketState.Open?)
  {
    match a
    case WorkRequester(ok, answer, closes) => RequesterEvents(s, ok, answer, closes, i);
    case WorkResponder(ok, incoming, closes) => ResponderEvents(s, ok, incoming, closes, i);
    case _ =>
  }

  lemma RequesterEvents(s: System, ok: bool, answer: Found<Reply>, closes: bool, i: nat)
    requires |s.trace| <= i < |RequesterWork(s, ok, answer, closes).trace|
    ensures s.trace <= RequesterWork(s, ok, answer, closes).trace
    ensures var e := RequesterWork(s, ok, answer, closes).trace[i];
            && !e.OpenReturned? && !e.CloseReturned?
            && (e.Up? ==> i == |s.trace| && e.side == Requester && s.req.requireSocketState.Open?)
  {
  }

  lemma ResponderEvents(s: System, ok: bool, incoming: Found<Request>, closes: bool, i: nat)
    requires |s.trace| <= i < |ResponderWork(s, ok, incoming, closes).trace|
    ensures s.trace <= ResponderWork(s, ok, incoming, closes).trace
    ensures var e := ResponderWork(s, ok, incoming, closes).trace[i];
            && !e.OpenReturned? && !e.CloseReturned?
            && (e.Up? ==> i == |s.trace| && e.side == Responder && s.rep.requireSocketState.Open?)
  {
  }

  lemma TraceGrows(s: System, a: Action)
    ensures s.trace <= Step(s, a).trace
  {
  }

  /** Main, for any number of calling threads: an open() called at `c` returns only after a
      close() called since, or after the worker connected or bound a socket since and no other
      open() came in between. */
  lemma {:induction false} OpenReturnsAfterSocketIsUp(actions: seq<Action>, side: Side, c: nat, r: nat)
    requires r < |Run(actions).trace| && Run(actions).trace[r] == OpenReturned(side, c)
    ensures var trace := Run(actions).trace;
            && c < r && trace[c] == OpenCalled(side)
            && (Clear(trace, CloseCall(side), c, r) ==>
                  Clear(trace, OpenCall(side), c, r) && exists u :: c < u < r && IsA(trace[u], Connection(side)))
  {
    var before, last := actions[..|actions| - 1], actions[|actions| - 1];
    var s := Run(before);
    TraceGrows(s, last);
    if r < |s.trace| {
      OpenReturnsAfterSocketIsUp(before, side, c, r);
      if Clear(s.trace, CloseCall(side), c, r) {
        var u :| c < u < r && IsA(s.trace[u], Connection(side));
        assert IsA(Step(s, last).trace[u], Connection(side));
      }
    } else {
      ControlReachable(before);
      WhoReturns(s, last, r);
      assert WaitOk(s.trace, side, ClientOf(s, side), Opening(c));
      if Clear(s.trace, CloseCall(side), c, |s.trace|) {
        var u :| c < u < |s.trace| && IsA(s.trace[u], Connection(side));
        assert IsA(Step(s, last).trace[u], Connection(side));
      }
    }
  }

  /** Main, likewise: a close() called at `c` returns only after an open() called since, or after
      the worker closed its socket since, and then no socket came up in between. */
  lemma {:induction false} CloseReturnsAfterSocketIsDown(actions: seq<Action>, side: Side, c: nat, r: nat)
    requires r < |Run(actions).trace| && Run(actions).trace[r] == CloseReturned(side, c)
    ensures var trace := Run(actions).trace;
            && c < r && trace[c] == CloseCalled(side)
            && (Clear(trace, OpenCall(side), c, r) ==>
                  && Clear(trace, CloseCall(side), c, r) && Clear(trace, Connection(side), c, r)
                  && exists d :: c < d < r && IsA(trace[d], Closure(side)))
  {
    var before, last := actions[..|actions| - 1], actions[|actions| - 1];
    var s := Run(before);
    TraceGrows(s, last);
    if r < |s.trace| {
      CloseReturnsAfterSocketIsDown(before, side, c, r);
      if Clear(s.trace, OpenCall(side), c, r) {
        var d :| c < d < r && IsA(s.trace[d], Closure(side));
        assert IsA(Step(s, last).trace[d], Closure(side));
      }
    } else {
      ControlReachable(before);
      WhoReturns(s, last, r);
      assert WaitOk(s.trace, side, ClientOf(s, side), Closing(c));
      if Clear(s.trace, OpenCall(side), c, |s.trace|) {
        var d :| c < d < |s.trace| && IsA(s.trace[d], Closure(side));
        assert IsA(Step(s, last).trace[d], Closure(side));
      }
    }
  }

  // ---- One controlling thread ----

  predicate Turns(a: Action, side: Side) {
    if side == Requester then a.CallRequester? && (a.call.CallOpen? || a.call.CallClose?)
    else a.CallResponder? && (a.call.CallOpen? || a.call.CallClose?)
  }

  /** Calls of one side are made one at a time: each after the one before has returned. */
  ghost predicate SingleController(actions: seq<Action>, side: Side) {
    forall i :: 0 <= i < |actions| && Turns(actions[i], side) ==> ClientOf(Run(actions[..i]), side).waits == {}
  }

  /** Nobody called since the waiting thread did. */
  ghost predicate Undisturbed(trace: seq<Event>, side: Side, c: Client) {
    forall w :: w in c.waits ==>
      && w.calledAt < |trace|
      && Clear(trace, OpenCall(side), w.calledAt, |trace|) && Clear(trace, CloseCall(side), w.calledAt, |trace|)
  }

  lemma UndisturbedStep(s: System, side: Side, a: Action)
    requires Undisturbed(s.trace, side, ClientOf(s, side))
    requires Turns(a, side) ==> ClientOf(s, side).waits == {}
    ensures Undisturbed(Step(s, a).trace, side, ClientOf(Step(s, a), side))
  {
    var c, c' := ClientOf(s, side), ClientOf(Step(s, a), side);
    if !Turns(a, side) {
      var events := QuietStep(s, side, a);
      forall w | w in c'.waits
        ensures Clear(Step(s, a).trace, OpenCall(side), w.calledAt, |Step(s, a).trace|)
        ensures Clear(Step(s, a).trace, CloseCall(side), w.calledAt, |Step(s, a).trace|)
      {
        ClearGrows(s.trace, events, OpenCall(side), w.calledAt);
        ClearGrows(s.trace, events, CloseCall(side), w.calledAt);
      }
    }
  }

  /** Every other step calls neither open() nor close() on that side, and starts no wait. */
  lemma QuietStep(s: System, side: Side, a: Action) returns (events: seq<Event>)
    requires !Turns(a, side)
    ensures Step(s, a).trace == s.trace + events && Quiet(events, OpenCall(side)) && Quiet(events, CloseCall(side))
    ensures ClientOf(Step(s, a), side).waits <= ClientOf(s, side).waits
  {
    match a
    case WorkRequester(ok, answer, closes) => events := RequesterMove(s, ok, answer, closes);
    case WorkResponder(ok, incoming, closes) => events := ResponderMove(s, ok, incoming, closes);
    case CallRequester(call) => events := CallEvents(s, Requester, side, call);
    case CallResponder(call) => events := CallEvents(s, Responder, side, call);
    case _ => events := Step(s, a).trace[|s.trace|..];
  }

  lemma CallEvents(s: System, caller: Side, side: Side, call: Call) returns (events: seq<Event>)
    requires caller == side ==> !call.CallOpen? && !call.CallClose?
    ensures var s' := Step(s, if caller == Requester then CallRequester(call) else CallResponder(call));
            && s'.trace == s.trace + events && Quiet(events, OpenCall(side)) && Quiet(events, CloseCall(side))
            && ClientOf(s', side).waits <= ClientOf(s, side).waits
  {
    if caller == Requester && s.reqPlace.ReqPolling? && NeedsMutex(call) {
      events := [];
    } else {
      events := CallStep(caller, ClientOf(s, caller), call, |s.trace|).events;
    }
  }

  /** With a single controller no call comes between a call and its return. */
  lemma {:induction false} ReturnsUndisturbed(actions: seq<Action>, side: Side, c: nat, r: nat)
    requires SingleController(actions, side) && r < |Run(actions).trace|
    requires Run(actions).trace[r] in {OpenReturned(side, c), CloseReturned(side, c)}
    ensures c < r && Clear(Run(actions).trace, OpenCall(side), c, r) && Clear(Run(actions).trace, CloseCall(side), c, r)
  {
    var before, last := actions[..|actions| - 1], actions[|actions| - 1];
    var s := Run(before);
    TraceGrows(s, last);
    SingleBefore(actions, side);
    if r < |s.trace| {
      ReturnsUndisturbed(before, side, c, r);
    } else {
      WhoReturns(s, last, r);
      UndisturbedReachable(before, side);
    }
  }

  lemma SingleBefore(actions: seq<Action>, side: Side)
    requires actions != [] && SingleController(actions, side)
    ensures SingleController(actions[..|actions| - 1], side)
  {
    var before := actions[..|actions| - 1];
    forall i | 0 <= i < |before| && Turns(before[i], side) ensures ClientOf(Run(before[..i]), side).waits == {} {
      assert before[..i] == actions[..i];
    }
  }

  lemma {:induction false} UndisturbedReachable(actions: seq<Action>, side: Side)
    requires SingleController(actions, side)
    ensures Undisturbed(Run(actions).trace, side, ClientOf(Run(actions), side))
  {
    if actions != [] {
      SingleBefore(actions, side);
      UndisturbedReachable(actions[..|actions| - 1], side);
      UndisturbedStep(Run(actions[..|actions| - 1]), side, actions[|actions| - 1]);
    }
  }

  /** Corollary, with one controlling thread: open() returns only after the worker brought a
      socket up since that very call. */
  lemma SingleOpenReturnsAfterSocketIsUp(actions: seq<Action>, side: Side, c: nat, r: nat) returns (u: nat)
    requires SingleController(actions, side)
    requires r < |Run(actions).trace| && Run(actions).trace[r] == OpenReturned(side, c)
    ensures c < u < r && Run(actions).trace[c] == OpenCalled(side) && IsA(Run(actions).trace[u], Connection(side))
  {
    ReturnsUndisturbed(actions, side, c, r);
    OpenReturnsAfterSocketIsUp(actions, side, c, r);
    u :| c < u < r && IsA(Run(actions).trace[u], Connection(side));
  }

  /** Corollary, likewise: close() returns only after the worker closed its socket since that very
      call, and no socket came up in between. */
  lemma SingleCloseReturnsAfterSocketIsDown(actions: seq<Action>, side: Side, c: nat, r: nat) returns (d: nat)
    requires SingleController(actions, side)
    requires r < |Run(actions).trace| && Run(actions).trace[r] == CloseReturned(side, c)
    ensures c < d < r && Run(actions).trace[c] == CloseCalled(side) && IsA(Run(actions).trace[d], Closure(side))
    ensures Clear(Run(actions).trace, Connection(side), c, r)
  {
    ReturnsUndisturbed(actions, side, c, r);
    CloseReturnsAfterSocketIsDown(actions, side, c, r);
    d :| c < d < r && IsA(Run(actions).trace[d], Closure(side));
  }

  /** With several threads it fails: from any state in which an open() waits, a close() makes its
      condition true, whether a socket is up or not, so that it can return. A close() notifies
      nobody itself: a thread already asleep returns when it wakes. */
  lemma CloseReleasesOpen(s: System, side: Side, k: nat)
    requires Opening(k) in ClientOf(s, side).waits && ClientOf(s, side).requireSocketState.Open?
    requires !(side == Requester && s.reqPlace.ReqPolling?)
    ensures var close := if side == Requester then CallRequester(CallClose) else CallResponder(CallClose);
            var leave := if side == Requester then CallRequester(ReturnOpen(k)) else CallResponder(ReturnOpen(k));
            var s' := Step(Step(s, close), leave);
            Opening(k) !in ClientOf(s', side).waits && s'.trace == s.trace + [CloseCalled(side), OpenReturned(side, k)]
  {
  }

  /** The shortest such run: open() returns and no socket ever came up. */
  lemma OpenReturnsWithoutSocket() returns (actions: seq<Action>)
    ensures Run(actions).trace == [OpenCalled(Requester), CloseCalled(Requester), OpenReturned(Requester, 0)]
  {
    actions := Then([], CallRequester(CallOpen));
    var s := Run(actions);
    assert s.trace == [OpenCalled(Requester)];
    CloseReleasesOpen(s, Requester, 0);
    actions := Then(actions, CallRequester(CallClose));
    actions := Then(actions, CallRequester(ReturnOpen(0)));
  }

  /** Whoever calls, a socket comes up only between an open() and the next close(): once closed
      it stays closed until the next open(). */
  lemma {:induction false} SocketsComeUpOnlyWhileOpen(actions: seq<Action>, side: Side, u: nat) returns (o: nat)
    requires u < |Run(actions).trace| && IsA(Run(actions).trace[u], Connection(side))
    ensures var trace := Run(actions).trace;
            o < u && trace[o] == OpenCalled(side) && Clear(trace, CloseCall(side), o, u)
  {
    var before, last := actions[..|actions| - 1], actions[|actions| - 1];
    var s := Run(before);
    TraceGrows(s, last);
    if u < |s.trace| {
      o := SocketsComeUpOnlyWhileOpen(before, side, u);
    } else {
      ControlReachable(before);
      WhoReturns(s, last, u);
      o := ClientOf(s, side).openedAt;
    }
  }

  // ---- Whether close() can return at all ----

  function RunFrom(s: System, actions: seq<Action>): System
    decreases |actions|
  {
    if actions == [] then s else RunFrom(Step(s, actions[0]), actions[1..])
  }

  /** The worker has a socket: it is past its wait for an open request. */
  predicate HoldsSocket(s: System, side: Side) {
    if side == Requester then s.reqPlace.ReqIdle? || s.reqPlace.ReqPolling?
    else s.repPlace.RepPolling? || s.repPlace.RepAnswering?
  }

  /** A close() called at `k` waits for a worker that has yet to give up its socket. */
  predicate WaitsForClose(s: System, side: Side, k: nat) {
    var c := ClientOf(s, side);
    Closing(k) in c.waits && c.requireSocketState.Close? && c.socketOpened
  }

  /** Another thread opens the same service. */
  predicate Opens(a: Action, side: Side) {
    if side == Requester then a == CallRequester(CallOpen) else a == CallResponder(CallOpen)
  }

  predicate NobodyOpens(actions: seq<Action>, side: Side) {
    forall i :: 0 <= i < |actions| ==> !Opens(actions[i], side)
  }

  lemma HangingStep(s: System, side: Side, k: nat, a: Action)
    requires WaitsForClose(s, side, k) && !HoldsSocket(s, side) && !Opens(a, side)
    ensures WaitsForClose(Step(s, a), side, k) && !HoldsSocket(Step(s, a), side)
  {
    match a
    case WorkRequester(_, _, _) =>
    case WorkResponder(_, _, _) =>
    case _ =>
  }

  lemma {:induction false} CloseHangs(s: System, side: Side, k: nat, actions: seq<Action>)
    requires WaitsForClose(s, side, k) && !HoldsSocket(s, side) && NobodyOpens(actions, side)
    ensures WaitsForClose(RunFrom(s, actions), side, k)
    decreases |actions|
  {
    if actions != [] {
      HangingStep(s, side, k, actions[0]);
      CloseHangs(Step(s, actions[0]), side, k, actions[1..]);
    }
  }

  /** One worker step lets the socket go, or two when a message is still waiting. */
  lemma WorkerLetsGo(s: System, side: Side, k: nat) returns (actions: seq<Action>)
    requires WaitsForClose(s, side, k) && HoldsSocket(s, side)
    ensures NobodyOpens(actions, side)
    ensures var c := ClientOf(RunFrom(s, actions), side); Closing(k) in c.waits && !c.socketOpened
  {
    var work := if side == Requester then WorkRequester(true, Nothing, true) else WorkResponder(true, Nothing, true);
    var s1 := Step(s, work);
    assert RunFrom(s1, []) == s1;
    if ClientOf(s1, side).socketOpened {
      actions := [work, work];
      assert actions[1..] == [work];
      assert RunFrom(s1, [work]) == RunFrom(Step(s1, work), []);
    } else {
      actions := [work];
    }
  }

  lemma {:induction false} RunFromAppend(s: System, actions: seq<Action>, a: Action)
    ensures RunFrom(s, actions + [a]) == Step(RunFrom(s, actions), a)
    decreases |actions|
  {
    if actions == [] {
      assert RunFrom(Step(s, a), []) == Step(s, a);
    } else {
      RunFromAppend(Step(s, actions[0]), actions[1..], a);
      assert (actions + [a])[1..] == actions[1..] + [a];
    }
  }

  /** The close() called at `k` has returned. */
  predicate Returned(s: System, side: Side, k: nat) {
    Closing(k) !in ClientOf(s, side).waits
  }

  /** Unless another thread opens the service again, a close() under way can still return if and
      only if the worker holds a socket: called after a timeout or an error took the socket away,
      it waits for ever. */
  lemma CloseCanReturnOnlyFromSocket(s: System, side: Side, k: nat)
    requires WaitsForClose(s, side, k)
    ensures (exists actions :: NobodyOpens(actions, side) && Returned(RunFrom(s, actions), side, k)) <==>
            HoldsSocket(s, side)
  {
    if HoldsSocket(s, side) {
      var actions := WorkerLetsGo(s, side, k);
      var a := if side == Requester then CallRequester(ReturnClose(k)) else CallResponder(ReturnClose(k));
      RunFromAppend(s, actions, a);
      assert NobodyOpens(actions + [a], side);
      assert Returned(RunFrom(s, actions + [a]), side, k);
    } else {
      forall actions | NobodyOpens(actions, side) ensures !Returned(RunFrom(s, actions), side, k) {
        CloseHangs(s, side, k, actions);
      }
    }
  }

  /** An open() of another thread makes its condition true, with the socket never closed since,
      so that it can return when it wakes. */
  lemma OpenReleasesClose(s: System, side: Side, k: nat)
    requires WaitsForClose(s, side, k) && !(side == Requester && s.reqPlace.ReqPolling?)
    ensures var open := if side == Requester then CallRequester(CallOpen) else CallResponder(CallOpen);
            var leave := if side == Requester then CallRequester(ReturnClose(k)) else CallResponder(ReturnClose(k));
            var s' := Step(Step(s, open), leave);
            Returned(s', side, k) && s'.trace == s.trace + [OpenCalled(side), CloseReturned(side, k)]
  {
  }

  lemma RunNext(actions: seq<Action>, a: Action)
    ensures Run(actions + [a]) == Step(Run(actions), a)
  {
    assert (actions + [a])[..|actions|] == actions;
  }

  /** Such a close() happens: it only takes a reply timeout before it. */
  lemma TimeoutThenCloseHangs() returns (actions: seq<Action>, k: nat)
    ensures WaitsForClose(Run(actions), Requester, k) && !HoldsSocket(Run(actions), Requester)
    ensures Run(actions).req.waits == {Closing(k)}
  {
    var work := WorkRequester(true, Nothing, true);
    actions := [];
    actions := Then(actions, CallRequester(CallOpen));
    assert Run(actions).req.waits == {Opening(0)};
    actions := Then(actions, work);
    assert Run(actions).reqPlace.ReqIdle? && Run(actions).req.requireSocketState.Open?;
    actions := Then(actions, CallRequester(ReturnOpen(0)));
    assert Run(actions).reqPlace.ReqIdle? && Run(actions).req.requireSocketState.Open? && Run(actions).req.waits == {};
    actions := Then(actions, CallRequester(Call.Post("request")));
    assert Run(actions).reqPlace.ReqIdle? && Run(actions).req.sendMessage;
    actions := Then(actions, work);
    assert Run(actions).reqPlace.ReqPolling? && Run(actions).req.requireSocketState.Open?;
    actions := Then(actions, work);
    assert Run(actions).reqPlace.ReqAwaitOpen? && Run(actions).req.requireSocketState.Open?;
    k := |Run(actions).trace|;
    actions := Then(actions, CallRequester(CallClose));
  }

  lemma Then(actions: seq<Action>, a: Action) returns (longer: seq<Action>)
    ensures longer == actions + [a] && Run(longer) == Step(Run(actions), a)
  {
    longer := actions + [a];
    RunNext(actions, a);
  }
}
