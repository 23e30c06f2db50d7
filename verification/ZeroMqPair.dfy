/** A requester object and a responder object with the network between them: every schedule of
    their methods is a run of the system, so what holds of runs holds of the objects. */
module ZeroMqPair {
  import opened ZeroMqService
  import opened ZeroMqSystem
  import opened ZeroMqDelivery
  import opened ZeroMqSockets
  import opened ZeroMqHandshake

  /** Every reply delivered answers the last request transmitted before it, with the latest post
      made after that request was received. */
  ghost predicate DeliveriesAnswer(trace: seq<Event>) {
    forall d :: 0 <= d < |trace| && trace[d].Delivered? ==>
      exists a: nat, b: nat, c: nat, e: nat ::
        ReplyChain(trace, trace[d].sock, trace[d].msg, a, b, c, e) && e < d && Clear(trace, Transmission, a, d)
  }

  lemma RunDelivers(actions: seq<Action>)
    ensures DeliveriesAnswer(Run(actions).trace)
  {
    var trace := Run(actions).trace;
    forall d | 0 <= d < |trace| && trace[d].Delivered?
      ensures exists a: nat, b: nat, c: nat, e: nat ::
                ReplyChain(trace, trace[d].sock, trace[d].msg, a, b, c, e) && e < d && Clear(trace, Transmission, a, d)
    {
      var a, b, c, e := EveryDeliveryAnswersTheLastRequest(actions, d);
    }
  }

  /** Unless a call of the other kind came in between, an open() has returned after a socket came
      up and a close() after one went down. */
  ghost predicate ReturnsKeepTheirWord(trace: seq<Event>) {
    && (forall r :: 0 <= r < |trace| && trace[r].OpenReturned? ==>
          var side, c := trace[r].side, trace[r].calledAt;
          && c < r && trace[c] == OpenCalled(side)
          && (Clear(trace, CloseCall(side), c, r) ==> exists u :: c < u < r && IsA(trace[u], Connection(side))))
    && (forall r :: 0 <= r < |trace| && trace[r].CloseReturned? ==>
          var side, c := trace[r].side, trace[r].calledAt;
          && c < r && trace[c] == CloseCalled(side)
          && (Clear(trace, OpenCall(side), c, r) ==> exists d :: c < d < r && IsA(trace[d], Closure(side))))
  }

  lemma RunReturns(actions: seq<Action>)
    ensures ReturnsKeepTheirWord(Run(actions).trace)
  {
    var trace := Run(actions).trace;
    forall r | 0 <= r < |trace| && trace[r].OpenReturned?
      ensures var side, c := trace[r].side, trace[r].calledAt;
              && c < r && trace[c] == OpenCalled(side)
              && (Clear(trace, CloseCall(side), c, r) ==> exists u :: c < u < r && IsA(trace[u], Connection(side)))
    {
      OpenReturnsAfterSocketIsUp(actions, trace[r].side, trace[r].calledAt, r);
    }
    forall r | 0 <= r < |trace| && trace[r].CloseReturned?
      ensures var side, c := trace[r].side, trace[r].calledAt;
              && c < r && trace[c] == CloseCalled(side)
              && (Clear(trace, OpenCall(side), c, r) ==> exists d :: c < d < r && IsA(trace[d], Closure(side)))
    {
      CloseReturnsAfterSocketIsDown(actions, trace[r].side, trace[r].calledAt, r);
    }
  }

  class Pair {
    const requester: Service
    const responder: Service
    var requests: set<Request>
    var replies: set<Reply>
    var trace: seq<Event>

    ghost predicate Valid() {
      requester != responder && requester.side == Requester && responder.side == Responder
    }

    ghost function View(): System
      reads this, requester, responder
    {
      System(requester.View(), requester.reqPlace, responder.View(), responder.repPlace, requests, replies, trace)
    }

    constructor ()
      ensures Valid() && View() == Initial() && fresh(requester) && fresh(responder)
    {
      requester := new Service(Requester);
      responder := new Service(Responder);
      requests, replies, trace := {}, {}, [];
    }

    method Requesting(ok: bool, answer: Found<Reply>, closes: bool)
      requires Valid()
      modifies this, requester
      ensures View() == RequesterWork(old(View()), ok, answer, closes)
    {
      var now, place, msg := |trace|, requester.reqPlace, requester.messageToSend;
      var outcome := NoReply;
      match place {
        case ReqExited => return;
        case ReqPolling(sock, _) =>
          match answer {
            case Arrived(reply) =>
              if reply !in replies || reply.to != Own(sock) {
                return;
              }
              outcome := GotReply(reply.msg);
              replies := replies - {reply};
            case Nothing =>
            case Fault => outcome := ReqError;
          }
        case _ =>
      }
      var events := requester.WorkerReq(ok, outcome, closes, now);
      trace := trace + events;
      if place.ReqIdle? && requester.reqPlace.ReqPolling? {
        requests := requests + {Request(Own(place.sock), now, msg)};
      }
    }

    method Responding(ok: bool, incoming: Found<Request>, closes: bool)
      requires Valid()
      modifies this, responder
      ensures View() == ResponderWork(old(View()), ok, incoming, closes)
    {
      var now, place := |trace|, responder.repPlace;
      var sends, msg := responder.sendMessage, responder.messageToSend;
      var postedAt := responder.postedAt;
      var outcome := NoRequest;
      match place {
        case RepExited => return;
        case RepPolling(_) =>
          match incoming {
            case Arrived(m) =>
              if m !in requests {
                return;
              }
              outcome := GotRequest(m.from, m.sentAt, m.msg);
              requests := requests - {m};
            case Nothing =>
            case Fault => outcome := RepError;
          }
        case _ =>
      }
      var events := responder.WorkerRep(ok, outcome, closes, now);
      trace := trace + events;
      if place.RepAnswering? && sends && ok {
        replies := replies + {Reply(place.asker, place.sentAt, place.receivedAt, postedAt, now, msg)};
      }
    }

    method Perform(a: Action)
      requires Valid()
      modifies this, requester, responder
      ensures View() == Step(old(View()), a)
    {
      match a {
        case CallRequester(call) =>
          if !requester.reqPlace.ReqPolling? || !(call.Post? || call.CallOpen? || call.CallClose?) {
            var events := requester.Perform(call, |trace|);
            trace := trace + events;
          }
        case CallResponder(call) =>
          var events := responder.Perform(call, |trace|);
          trace := trace + events;
        case WorkRequester(ok, answer, closes) => Requesting(ok, answer, closes);
        case WorkResponder(ok, incoming, closes) => Responding(ok, incoming, closes);
        case ForeignRequest(client, text) =>
          requests := requests + {Request(Foreign(client), |trace|, text)};
          trace := trace + [ForeignSent(client, text)];
        case LoseRequest(request) => requests := requests - {request};
        case LoseReply(reply) => replies := replies - {reply};
      }
    }

    /** Any schedule of calls, workers, other clients and losses, from the construction on. */
    method Execute(schedule: seq<Action>)
      requires Valid() && View() == Initial()
      modifies this, requester, responder
      ensures View() == Run(schedule)
      ensures DeliveriesAnswer(trace)
      ensures SocketsOk(View())
      ensures ReturnsKeepTheirWord(trace)
    {
      for i := 0 to |schedule|
        invariant View() == Run(schedule[..i])
      {
        assert schedule[..i + 1][..i] == schedule[..i];
        Perform(schedule[i]);
      }
      assert schedule[..|schedule|] == schedule;
      RunDelivers(schedule);
      SocketsObeyTheirRules(schedule);
      RunReturns(schedule);
    }
  }
}
