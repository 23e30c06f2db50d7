/** The ZeroMQ request/reply service, one instance at a time: the state its threads share, the
    calls of its users, and the two worker threads. Every step is one region held under the
    service mutex; what the ZeroMQ library does is a parameter. A step also reports what it
    did as events, and `now` is the number of events so far in the whole system. */
module ZeroMqService {

  datatype Side = Requester | Responder

  datatype SocketState = Open | Close

  /** Who asked: a socket of the modelled requester or some other client. */
  datatype Address = Own(sock: nat) | Foreign(client: nat)

  datatype Event =
    | Posted(side: Side, msg: string)          // sendMessage accepted a message
    | PostRefused(side: Side)                  // sendMessage threw: socket closed
    | OpenCalled(side: Side)                   // open() set out to open
    | OpenReturned(side: Side, calledAt: nat)  // the open() called at that event
    | CloseCalled(side: Side)                  // close() set out to close
    | CloseReturned(side: Side, calledAt: nat)
    | ConnectFailed(side: Side)
    | Up(side: Side, sock: nat)                // connected or bound
    | Down(side: Side, sock: nat)              // closed
    | Failed(side: Side, sock: nat)            // a ZeroMQ error ended the use of the socket
    | Sent(sock: nat, msg: string)             // requester transmitted a request
    | TimedOut(sock: nat)
    | Delivered(sock: nat, msg: string)        // reply handed to the requester's callback
    | Received(sock: nat, asker: Address, sentAt: nat, msg: string) // request handed to the responder's callback
    | Replied(sock: nat, msg: string)          // responder transmitted a reply
    | ForeignSent(client: nat, msg: string)    // another client sent a request

  /** A thread in the wait of open() or close(), named after the event of its call. */
  datatype Wait = Opening(calledAt: nat) | Closing(calledAt: nat)

  datatype Client = Client(
    requireSocketState: SocketState,
    sendMessage: bool,
    messageToSend: string,
    socketOpened: bool,
    runThd: bool,
    waits: set<Wait>, // of any number of threads
    postedAt: nat,   // history: event of the latest accepted message
    openedAt: nat)   // history: event of the latest open() that set out to open

  function Inactive(): Client {
    Client(Close, false, "", false, true, {}, 0, 0)
  }

  /** The condition on which a connected worker gives its socket up. */
  predicate MustLeave(c: Client) {
    c.requireSocketState.Close? || !c.runThd
  }

  // ---- Calls ----

  datatype Call =
    | Post(msg: string)
    | CallOpen
    | ReturnOpen(calledAt: nat)
    | CallClose
    | ReturnClose(calledAt: nat)
    | Deactivate

  datatype Called = Called(c: Client, events: seq<Event>)

  /** Any thread may make any call at any time; a return that its condition does not allow yet
      leaves everything as it is. */
  function CallStep(side: Side, c: Client, call: Call, now: nat): Called {
    match call
    case Post(msg) =>
      if c.requireSocketState.Open?
      then Called(c.(messageToSend := msg, sendMessage := true, postedAt := now), [Posted(side, msg)])
      else Called(c, [PostRefused(side)])
    case CallOpen =>
      if c.requireSocketState.Open? then Called(c, [])
      else Called(c.(socketOpened := false, requireSocketState := Open, waits := c.waits + {Opening(now)},
                     openedAt := now),
                  [OpenCalled(side)])
    case ReturnOpen(calledAt) =>
      if Opening(calledAt) in c.waits && c.socketOpened
      then Called(c.(waits := c.waits - {Opening(calledAt)}), [OpenReturned(side, calledAt)])
      else Called(c, [])
    case CallClose =>
      if c.requireSocketState.Close? then Called(c, [])
      else Called(c.(socketOpened := true, requireSocketState := Close, waits := c.waits + {Closing(now)}),
                  [CloseCalled(side)])
    case ReturnClose(calledAt) =>
      if Closing(calledAt) in c.waits && !c.socketOpened
      then Called(c.(waits := c.waits - {Closing(calledAt)}), [CloseReturned(side, calledAt)])
      else Called(c, [])
    case Deactivate => Called(c.(runThd := false), [])
  }

  // ---- What both workers share ----

  datatype Connected = Stay | Finish | Connect(c: Client, sock: nat, events: seq<Event>) | Retry(events: seq<Event>)

  /** Leaving the wait for an open request; a fresh socket is named after the current event. */
  function ConnectStep(side: Side, c: Client, ok: bool, now: nat): Connected {
    if !c.runThd then Finish
    else if c.requireSocketState.Close? then Stay
    else if ok then Connect(c.(socketOpened := true), now, [Up(side, now)])
    else Retry([ConnectFailed(side)])
  }

  /** Closing the socket, which the library may refuse with an error. */
  function Leave(side: Side, c: Client, sock: nat, closes: bool): Called {
    if closes then Called(c.(socketOpened := false), [Down(side, sock)])
    else Called(c, [Failed(side, sock)])
  }

  // ---- The requester's worker ----

  /** `ReqPolling` holds the mutex from transmission to the end of the poll. */
  datatype ReqPlace = ReqAwaitOpen | ReqIdle(sock: nat) | ReqPolling(sock: nat, sentAt: nat) | ReqExited

  datatype ReqResult = ReqResult(c: Client, place: ReqPlace, events: seq<Event>)

  datatype ReqOutcome = GotReply(msg: string) | NoReply | ReqError

  function ReqConnect(c: Client, ok: bool, now: nat): ReqResult {
    match ConnectStep(Requester, c, ok, now)
    case Stay => ReqResult(c, ReqAwaitOpen, [])
    case Finish => ReqResult(c, ReqExited, [])
    case Connect(c', sock, events) => ReqResult(c', ReqIdle(sock), events)
    case Retry(events) => ReqResult(c, ReqAwaitOpen, events)
  }

  function ReqLeave(c: Client, sock: nat, closes: bool, events: seq<Event>): ReqResult {
    var left := Leave(Requester, c, sock, closes);
    ReqResult(left.c, ReqAwaitOpen, events + left.events)
  }

  /** Out of the idle wait: transmit the posted message, or leave. */
  function ReqServe(c: Client, sock: nat, sends: bool, closes: bool, now: nat): ReqResult {
    if c.sendMessage then
      var c' := c.(sendMessage := false);
      if sends then ReqResult(c', ReqPolling(sock, now), [Sent(sock, c.messageToSend)])
      else ReqResult(c', ReqAwaitOpen, [Failed(Requester, sock)])
    else if MustLeave(c) then ReqLeave(c, sock, closes, [])
    else ReqResult(c, ReqIdle(sock), [])
  }

  /** Out of the poll: hand the reply over, or report the timeout and drop the socket. */
  function ReqFinish(c: Client, sock: nat, outcome: ReqOutcome, closes: bool): ReqResult {
    match outcome
    case GotReply(msg) =>
      if MustLeave(c) then ReqLeave(c, sock, closes, [Delivered(sock, msg)])
      else ReqResult(c, ReqIdle(sock), [Delivered(sock, msg)])
    case NoReply => ReqLeave(c, sock, closes, [TimedOut(sock)])
    case ReqError => ReqResult(c, ReqAwaitOpen, [Failed(Requester, sock)])
  }

  // ---- The responder's worker ----

  /** `RepAnswering` waits, mutex released, for the reply to the request received at `receivedAt`. */
  datatype RepPlace =
    | RepAwaitOpen
    | RepPolling(sock: nat)
    | RepAnswering(sock: nat, asker: Address, sentAt: nat, receivedAt: nat)
    | RepExited

  datatype RepResult = RepResult(c: Client, place: RepPlace, events: seq<Event>)

  datatype RepOutcome = GotRequest(asker: Address, sentAt: nat, msg: string) | NoRequest | RepError

  function RepConnect(c: Client, ok: bool, now: nat): RepResult {
    match ConnectStep(Responder, c, ok, now)
    case Stay => RepResult(c, RepAwaitOpen, [])
    case Finish => RepResult(c, RepExited, [])
    case Connect(c', sock, events) => RepResult(c', RepPolling(sock), events)
    case Retry(events) => RepResult(c, RepAwaitOpen, events)
  }

  /** The tail of the loop: leave when that is required, else poll again. */
  function RepTail(c: Client, sock: nat, closes: bool, events: seq<Event>): RepResult {
    if MustLeave(c) then
      var left := Leave(Responder, c, sock, closes);
      RepResult(left.c, RepAwaitOpen, events + left.events)
    else RepResult(c, RepPolling(sock), events)
  }

  /** Out of the poll: hand the request over and forget every message posted before. */
  function RepPoll(c: Client, sock: nat, outcome: RepOutcome, closes: bool, now: nat): RepResult {
    match outcome
    case GotRequest(asker, sentAt, msg) =>
      RepResult(c.(sendMessage := false), RepAnswering(sock, asker, sentAt, now), [Received(sock, asker, sentAt, msg)])
    case NoRequest => RepTail(c, sock, closes, [])
    case RepError => RepResult(c, RepAwaitOpen, [Failed(Responder, sock)])
  }

  /** Out of the wait for the reply: transmit the posted message, or leave without one. */
  function RepAnswer(c: Client, place: RepPlace, sends: bool, closes: bool): RepResult
    requires place.RepAnswering?
  {
    if c.sendMessage then
      var c' := c.(sendMessage := false);
      if sends then RepTail(c', place.sock, closes, [Replied(place.sock, c.messageToSend)])
      else RepResult(c', RepAwaitOpen, [Failed(Responder, place.sock)])
    else if MustLeave(c) then RepTail(c, place.sock, closes, [])
    else RepResult(c, place, [])
  }

  // ---- The service object ----

  /** The object the threads share, with the program counter of its worker for either role. */
  class Service {
    const side: Side
    var requireSocketState: SocketState
    var sendMessage: bool
    var messageToSend: string
    var socketOpened: bool
    var runThd: bool
    var reqPlace: ReqPlace
    var repPlace: RepPlace
    var waits: set<Wait>
    var postedAt: nat // history
    ghost var openedAt: nat

    ghost function View(): Client reads this {
      Client(requireSocketState, sendMessage, messageToSend, socketOpened, runThd, waits, postedAt, openedAt)
    }

    constructor (side: Side)
      ensures this.side == side && View() == Inactive()
      ensures reqPlace == ReqAwaitOpen && repPlace == RepAwaitOpen
    {
      this.side := side;
      requireSocketState, sendMessage, messageToSend := Close, false, "";
      socketOpened, runThd := false, true;
      reqPlace, repPlace := ReqAwaitOpen, RepAwaitOpen;
      waits, postedAt, openedAt := {}, 0, 0;
    }

    method SendMessage(msg: string, now: nat) returns (events: seq<Event>)
      modifies this`messageToSend, this`sendMessage, this`postedAt
      ensures Called(View(), events) == CallStep(side, old(View()), Post(msg), now)
    {
      if requireSocketState == Open {
        messageToSend := msg;
        sendMessage := true;
        postedAt := now;
        events := [Posted(side, msg)];
      } else {
        events := [PostRefused(side)];
      }
    }

    /** open() up to its wait. */
    method BeginOpen(now: nat) returns (opening: bool, events: seq<Event>)
      modifies this`socketOpened, this`requireSocketState, this`waits, this`openedAt
      ensures opening <==> old(requireSocketState) == Close
      ensures Called(View(), events) == CallStep(side, old(View()), CallOpen, now)
    {
      opening, events := false, [];
      if requireSocketState != Open {
        opening := true;
        socketOpened := false;
        requireSocketState := Open;
        waits := waits + {Opening(now)};
        openedAt := now;
        events := [OpenCalled(side)];
      }
    }

    /** The end of the wait of the open() called at that event. */
    method EndOpen(calledAt: nat) returns (events: seq<Event>)
      requires Opening(calledAt) in waits && socketOpened
      modifies this`waits
      ensures forall now :: Called(View(), events) == CallStep(side, old(View()), ReturnOpen(calledAt), now)
    {
      waits := waits - {Opening(calledAt)};
      events := [OpenReturned(side, calledAt)];
    }

    /** close() up to its wait. */
    method BeginClose(now: nat) returns (closing: bool, events: seq<Event>)
      modifies this`socketOpened, this`requireSocketState, this`waits
      ensures closing <==> old(requireSocketState) == Open
      ensures Called(View(), events) == CallStep(side, old(View()), CallClose, now)
    {
      closing, events := false, [];
      if requireSocketState == Open {
        closing := true;
        socketOpened := true;
        requireSocketState := Close;
        waits := waits + {Closing(now)};
        events := [CloseCalled(side)];
      }
    }

    method EndClose(calledAt: nat) returns (events: seq<Event>)
      requires Closing(calledAt) in waits && !socketOpened
      modifies this`waits
      ensures forall now :: Called(View(), events) == CallStep(side, old(View()), ReturnClose(calledAt), now)
    {
      waits := waits - {Closing(calledAt)};
      events := [CloseReturned(side, calledAt)];
    }

    /** Without the mutex, as the source does it. */
    method Deactivate()
      modifies this`runThd
      ensures forall now :: Called(View(), []) == CallStep(side, old(View()), Call.Deactivate, now)
    {
      runThd := false;
    }

    /** Any of the calls; a return that is not allowed yet does nothing. */
    method Perform(call: Call, now: nat) returns (events: seq<Event>)
      modifies this`requireSocketState, this`sendMessage, this`messageToSend, this`socketOpened, this`runThd,
               this`waits,
        this`postedAt, this`openedAt
      ensures Called(View(), events) == CallStep(side, old(View()), call, now)
    {
      events := [];
      match call {
        case Post(msg) => events := SendMessage(msg, now);
        case CallOpen =>
          var opening;
          opening, events := BeginOpen(now);
        case CallClose =>
          var closing;
          closing, events := BeginClose(now);
        case ReturnOpen(calledAt) =>
          if Opening(calledAt) in waits && socketOpened {
            events := EndOpen(calledAt);
          }
        case ReturnClose(calledAt) =>
          if Closing(calledAt) in waits && !socketOpened {
            events := EndClose(calledAt);
          }
        case Deactivate => Deactivate();
      }
    }

    /** Disconnect and close, then tell whoever waits, unless the library fails. */
    method CloseSocket(sock: nat, closes: bool) returns (events: seq<Event>)
      modifies this`socketOpened
      ensures Called(View(), events) == Leave(side, old(View()), sock, closes)
    {
      if closes {
        socketOpened := false;
        events := [Down(side, sock)];
      } else {
        events := [Failed(side, sock)];
      }
    }

    /** workerReq from one of its places to the next. `resetSocket` is local to a round. */
    method WorkerReq(ok: bool, outcome: ReqOutcome, closes: bool, now: nat) returns (events: seq<Event>)
      requires side == Requester && !reqPlace.ReqExited?
      modifies this
      ensures ReqResult(View(), reqPlace, events) ==
              match old(reqPlace)
              case ReqAwaitOpen => ReqConnect(old(View()), ok, now)
              case ReqIdle(sock) => ReqServe(old(View()), sock, ok, closes, now)
              case ReqPolling(sock, _) => ReqFinish(old(View()), sock, outcome, closes)
    {
      events := [];
      match reqPlace {
        case ReqAwaitOpen =>
          if !runThd {
            reqPlace := ReqExited;
          } else if requireSocketState == Open {
            if ok {
              socketOpened := true;
              reqPlace := ReqIdle(now);
              events := [Up(side, now)];
            } else {
              events := [ConnectFailed(side)];
            }
          }
        case ReqIdle(sock) =>
          if sendMessage {
            sendMessage := false;
            if ok {
              events := [Sent(sock, messageToSend)];
              reqPlace := ReqPolling(sock, now);
            } else {
              events := [Failed(side, sock)];
              reqPlace := ReqAwaitOpen;
            }
          } else if requireSocketState == Close || !runThd {
            events := CloseSocket(sock, closes);
            reqPlace := ReqAwaitOpen;
          }
        case ReqPolling(sock, _) =>
          var resetSocket := false;
          match outcome {
            case GotReply(msg) =>
              events := [Delivered(sock, msg)];
            case NoReply =>
              events := [TimedOut(sock)];
              resetSocket := true;
            case ReqError =>
              events := [Failed(side, sock)];
              reqPlace := ReqAwaitOpen;
              return;
          }
          if resetSocket || requireSocketState == Close || !runThd {
            var left := CloseSocket(sock, closes);
            events := events + left;
            reqPlace := ReqAwaitOpen;
          } else {
            reqPlace := ReqIdle(sock);
          }
      }
    }

    /** workerRep from one of its places to the next. */
    method WorkerRep(ok: bool, outcome: RepOutcome, closes: bool, now: nat) returns (events: seq<Event>)
      requires side == Responder && !repPlace.RepExited?
      modifies this
      ensures RepResult(View(), repPlace, events) ==
              match old(repPlace)
              case RepAwaitOpen => RepConnect(old(View()), ok, now)
              case RepPolling(sock) => RepPoll(old(View()), sock, outcome, closes, now)
              case RepAnswering(_, _, _, _) => RepAnswer(old(View()), old(repPlace), ok, closes)
    {
      events := [];
      match repPlace {
        case RepAwaitOpen =>
          if !runThd {
            repPlace := RepExited;
          } else if requireSocketState == Open {
            if ok {
              socketOpened := true;
              repPlace := RepPolling(now);
              events := [Up(side, now)];
            } else {
              events := [ConnectFailed(side)];
            }
          }
          return;
        case RepPolling(sock) =>
          match outcome {
            case GotRequest(asker, sentAt, msg) =>
              events := [Received(sock, asker, sentAt, msg)];
              sendMessage := false;
              repPlace := RepAnswering(sock, asker, sentAt, now);
              return;
            case NoRequest =>
            case RepError =>
              events := [Failed(side, sock)];
              repPlace := RepAwaitOpen;
              return;
          }
        case RepAnswering(sock, _, _, _) =>
          if sendMessage {
            sendMessage := false;
            if !ok {
              events := [Failed(side, sock)];
              repPlace := RepAwaitOpen;
              return;
            }
            events := [Replied(sock, messageToSend)];
          } else if requireSocketState == Open && runThd {
            return;
          }
      }
      var sock := repPlace.sock;
      if requireSocketState == Close || !runThd {
        var left := CloseSocket(sock, closes);
        events := events + left;
        repPlace := RepAwaitOpen;
      } else {
        repPlace := RepPolling(sock);
      }
    }
  }
}
