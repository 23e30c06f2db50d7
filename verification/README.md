# Shapeware messaging: a verified model

Shapeware is a set of messaging plug-ins. This project models the five places where it holds
protocol or algorithmic logic of its own and proves what they guarantee over every run:

- **ZeroMQ request/reply service**: two worker threads, REQ and REP, each with a one-message
  mailbox, a required state and an open/close handshake. `ZeroMqService` holds the shared
  state, the calls and the workers, one lock-held region a step, as functions and as a class.
  `ZeroMqSystem` joins a requester and a responder by a network that routes replies to the
  asking socket, loses messages and carries the requests of other clients. `ZeroMqDelivery`,
  `ZeroMqSockets` and `ZeroMqHandshake` prove the end-to-end guarantee, the socket rules of
  ZeroMQ RFC 28/REQREP and the meaning of `open()` and `close()`; `ZeroMqProgress` proves that
  the service gets on, up to whole exchanges of question and answer; `ZeroMqPair` puts two
  service objects on that network.
- **MQTT service**: `TopicTokens` (the tokenizer and its inverse), `TopicFilters` (the three
  string tests of the dispatcher against section 4.7.1 of MQTT 3.1.1), `ContextTable` (token to
  context maps with reuse of tokens and a size limit) and `MqttService` (the service class, and
  dispatch over runs of subscribes and unsubscribes).
- **Task queues**: `TaskQueue` (mutex, condition, flags and worker, any interleaving) and
  `RetryQueue` (the variant that keeps a failing task at its head), with `TaskQueueProgress` and
  `RetryQueueProgress` on the tasks that do get started.
- **AWS fleet provisioning**: `FleetProvisioning` (the script of the worker, its write-once
  promises and its contexts), `FleetProtocol` (the invariant of every run), `FleetRegistration`
  (what a RegisterThing publish rests on), `FleetOutcome` (how a run ends), `FleetMessages` (what
  messages can do to a run), `FleetFailure` (how it fails), `FleetProgress` (when its untimed waits
  can end), `FleetSuccess` (runs that get through and runs that do not), `FleetService` (every run is a schedule of the
  MQTT service) and `FleetWorker` (the provisioning object).
- **Recursive mkdir**: `MakeDirectories`, over a map of paths closed under parents.

The threads of the source are modelled as runs: a run is any sequence of actions, an action is
one lock-held region or one access of shared state, and an action that is not possible in a
state changes nothing. Answers of libraries (poll results, broker completions, errors, what the
kernel refuses) are parameters of the actions, so every lemma about runs covers all of them.
Classes carry the fields of the source; each method is proved against the step function of its
region, and the `Execute` of the two queues, the MQTT service, the pair of ZeroMQ services and the
provisioning object proves that any schedule of those methods is a run and has its properties. `ghost` fields and history
fields only record what happened.

## Where the code falls short

- The dispatcher does not follow section 4.7.1 of MQTT 3.1.1 on two families: a filter ending
  in `/#` misses its own parent level, and a filter holding both `+` and `#` is never matched.
  `TopicFilters.FilterDispatchedRight` gives the exact condition on the filter. Section 4.7.2
  lets no filter that starts with a wildcard match a topic that begins with `$`; the dispatcher
  calls its handler for such a topic, the `$aws/...` topics of provisioning among them:
  `TopicFilters.DispatchOfSystemTopics` gives the family,
  `TopicFilters.FilterDispatchedByStandard` the condition for both sections.
- A `close()` called after a reply timeout or a ZeroMQ error took the socket away never returns,
  unless another thread opens the service again:
  `ZeroMqHandshake.CloseCanReturnOnlyFromSocket` gives the exact condition and
  `ZeroMqHandshake.TimeoutThenCloseHangs` a run. With several threads every
  `close()` makes the condition of a waiting `open()` true, socket or no socket, so that it can
  return: `ZeroMqHandshake.CloseReleasesOpen`, with a run in
  `ZeroMqHandshake.OpenReturnsWithoutSocket`.
- `folder_exists` tests one bit of the mode, which block devices and sockets have too:
  `MakeDirectories.SuccessMakesTarget` gives the exact condition and
  `MakeDirectories.BlockDeviceIsTakenForFolder` an input.
- A `pop()` while the retry queue processes its head removes that task, and a success then
  removes the next one untried: `RetryQueue.SuccessRemovesOwnTask` gives the exact condition.
- The waits of provisioning are untimed. `FleetProgress.WaitCanEnd` gives the exact condition on
  which each can end: the promise is set, or a handler that answers is still in place, or the
  context of the call is in place and the library still owes its one answer;
  `FleetProgress.CallCanBeAnswered` says the same of every subscribe and publish, wherever the
  worker is. What leaves a publish unconfirmed: the library refuses it
  (`FleetProgress.LostPublishWaitsForever`), the context map is full
  (`FleetProgress.UnstoredPublishWaitsForever`), its answer comes between the acceptance and the
  store of the context (`FleetProgress.PublishCanBeConfirmed`, `FleetProgress.EarlyAnswerIsLost`),
  its token is given to another publish (`FleetProgress.ReusedTokenLosesPublish`), or its answer
  has no response to name the token (`FleetProgress.EmptyAnswerIsLost`). The last three befall a
  subscribe too (`FleetProgress.StoredCallCanBeAnswered`,
  `FleetProgress.ReusedTokenLosesSubscribe`, `FleetProgress.EmptyAnswerIsLost`). The wait for a
  response cannot end once others have replaced or erased both of its handlers
  (`FleetProgress.ResponseCanCome`). `FleetSuccess.LosingRunsExist` gives runs with a refused and
  with an early-answered publish, `FleetSuccess.ProvisioningCanSucceed` one that gets through.
- A message whose handler throws, such as a keys response without a token, ends the process:
  nothing between the handler and the library catches. `FleetMessages.MessageEndsProcess` gives
  the exact condition on a message, `FleetMessages.CrashedByThrownMessage` that of every run,
  and `FleetSuccess.CrashingRunExists` a run.
- A keys response after the one that counted replaces certificate, token and files.
  `FleetMessages.LaterResponsesKeepThePair` gives the exact condition on which the pair stays,
  and `FleetSuccess.RegisteredWithLaterPair` a run that registers with a later pair.
  `FleetMessages.FilesBelongToThePair` gives the exact condition on which the files on disk in
  the end are those of the registered pair, and `FleetSuccess.FilesOfAnotherPair` runs, for every
  template and every later pair, in which they are only if that pair repeats the registered one.

## Model

| member | source | states |
|---|---|---|
| TopicTokens.TokenizeTopic | include/mqtt_utils.h:6-19 | The loop computes the split: joining the tokens rebuilds the input, no token holds the delimiter, there is one token more than delimiters |
| TopicTokens.JoinOfSplit | include/mqtt_utils.h:12-16 | Joining the tokens of any text with the delimiter gives the text back |
| TopicTokens.SplitOfJoin | include/mqtt_utils.h:12-16 | Any non-empty list of delimiter-free tokens is what the split of its join returns |
| TopicTokens.SplitIsInjective | include/mqtt_utils.h:6-19 | Different topics have different token lists |
| TopicFilters.CompareLevels | MqttService/MqttService.cpp:1191-1202 | The iterator loop with its early exit decides whether all levels are equal or filled by `+` |
| TopicFilters.CountHits | MqttService/MqttService.cpp:1172-1209 | The three tests call a handler as often as the reference count says, and at most once for a wildcard-free topic |
| TopicFilters.AtMostOneHit | MqttService/MqttService.cpp:1172-1209 | The exact, `#` and `+` branches exclude each other on every wildcard-free topic, whatever the filter |
| TopicFilters.PrefixSeesLevels | MqttService/MqttService.cpp:1178-1179 | The prefix test on strings holds if and only if the levels before `#` are a proper prefix of the levels of the topic |
| TopicFilters.DispatchAgainstStandard | MqttService/MqttService.cpp:1168-1210 | For every well-formed filter and wildcard-free topic the handler is called exactly when section 4.7.1 of MQTT 3.1.1 matches, except for a filter ending in `/#` on its parent level and for filters with both wildcards |
| TopicFilters.FilterDispatchedRight | MqttService/MqttService.cpp:1168-1210 | A filter is dispatched as the standard says on every topic name, which section 4.7.3 wants non-empty, if and only if it does not end in `/#` or is `/#` itself |
| TopicFilters.MissedTopic | MqttService/MqttService.cpp:1177-1182 | Every well-formed filter ending in `/#`, but `/#` itself, has a non-empty topic that the standard matches and the code does not |
| TopicFilters.DispatchOfSystemTopics | MqttService/MqttService.cpp:1168-1210 | Against sections 4.7.1 and 4.7.2 together, a handler is called wrongly exactly when a filter starting with a wildcard meets a topic beginning with `$`, and wrongly not called exactly on the two families above |
| TopicFilters.FilterDispatchedByStandard | MqttService/MqttService.cpp:1168-1210 | A filter is dispatched as both sections say on every topic name if and only if it does not start with a wildcard and does not end in `/#` or is `/#` |
| TopicFilters.PlusMeetsSystemTopic | MqttService/MqttService.cpp:1184-1209 | Every well-formed filter that starts with `+` and has no `#` hits some topic beginning with `$` |
| ContextTable.EveryCallAccounted | MqttService/MqttService.cpp:1001-1072 | Every accepted call, whatever tokens are reused, is exactly one of refused, pending, completed, overwritten; it is in the map exactly while pending and gets its one completion callback, with its own context, exactly if completed |
| ContextTable.AtMostOneCompletion | MqttService/MqttService.cpp:1011-1018 | A completion callback is the last callback of its call: at most one, and no delivery callback after it |
| ContextTable.Conservation | MqttService/MqttService.cpp:920-926 | Accepted calls = entries in the map + completions + overwritten ones + refused ones, after every run |
| ContextTable.SizeBound | MqttService/MqttService.cpp:920-926 | The limited map never exceeds its limit by more than one entry |
| ContextTable.LimitReached | MqttService/MqttService.cpp:920-926 | The bound is reached: for every limit, one more call than the limit, each under a token of its own, fills the map with one entry more |
| ContextTable.RefusedExactly | MqttService/MqttService.cpp:920-926 | A call is refused if and only if the map held more entries than the limit before it |
| ContextTable.PendingIsCalled | MqttService/MqttService.cpp:1007-1136 | A completion or confirmation that names the token of a pending call makes exactly one callback, to that call with its own context |
| ContextTable.NobodyIsCalled | MqttService/MqttService.cpp:1019-1134 | One that names the token of no pending call makes none |
| MqttService.PublishesAccounted | MqttService/MqttService.cpp:908-929 | Both statements for publishes under the source's own limit: every accepted publish accounted for, and at most one entry above the buffer size, for every buffer size |
| MqttService.BufferLimit | MqttService/MqttService.cpp:920 | A negative buffer size compares as a huge unsigned limit, any other as itself |
| MqttService.HasRoom | MqttService/MqttService.cpp:920 | There is room exactly while the map holds no more entries than a non-negative buffer size, and practically always with a negative one |
| MqttService.DispatchCount | MqttService/MqttService.cpp:1168-1210 | Whatever the order of the map, each of its filters is called as often as it is hit and no other filter is called |
| MqttService.HandlersFollowLastOperation | MqttService/MqttService.cpp:515-559 | The handler map holds a filter if and only if the last operation on it was a subscribe, with that operation's handler |
| MqttService.MessageReachesSubscribers | MqttService/MqttService.cpp:1163-1212 | After any run of subscribes and unsubscribes, a wildcard-free topic calls exactly once each handler whose filter was last subscribed and is matched, and nothing else |
| MqttService.Service.Create | MqttService/MqttService.cpp:207-248 | Succeeds if and only if there was no client, the library creates one and takes the callbacks; a client it created stays even if the callbacks fail |
| MqttService.Service.Subscribe | MqttService/MqttService.cpp:495-527 | Fails without a client or on a library error, leaving everything as it was; else stores context and handler |
| MqttService.Service.Unsubscribe | MqttService/MqttService.cpp:529-562 | Fails likewise; else erases the handler and stores its context |
| MqttService.Service.OnSubscribe | MqttService/MqttService.cpp:707-738 | One completion step of the subscribe table; a null response counts as token 0 |
| MqttService.Service.OnSubscribeFailure | MqttService/MqttService.cpp:745-784 | One completion step with result false and qos 0 |
| MqttService.Service.OnUnsubscribeDone | MqttService/MqttService.cpp:796-870 | One completion step of the unsubscribe table, success or failure |
| MqttService.Service.Publish | MqttService/MqttService.cpp:876-949 | Fails only without a client; when accepted with at most the buffer size of entries in the map, its own context is stored under its token and all others stay; with more, or when rejected, the map stays as it was |
| MqttService.Service.OnSend | MqttService/MqttService.cpp:1001-1024 | One completion step, or nothing for a null response |
| MqttService.Service.OnSendFailure | MqttService/MqttService.cpp:1032-1072 | One completion step with result false; a null response counts as token 0 |
| MqttService.Service.Delivered | MqttService/MqttService.cpp:1117-1139 | Calls back and keeps the context |
| MqttService.Service.MsgArrived | MqttService/MqttService.cpp:1147-1222 | The loop makes the calls of the reference dispatch, in the order of the map, and reports whether there was one |
| MqttService.Service.Execute | MqttService/MqttService.cpp:495-1139 | Over any schedule of calls, answers and confirmations the handler map is the outcome of the accepted subscribes and unsubscribes, the publish map the run of its events, and every accepted publish is accounted for |
| MqttService.Service.Receive | MqttService/MqttService.cpp:1147-1222 | A message that arrives after any such schedule calls exactly once the handler of each well-formed filter last subscribed and matched |
| MqttService.MapsOfSchedule | MqttService/MqttService.cpp:495-1139 | The maps of the service after a schedule are independent: each is the run of its own events alone |
| TaskQueue.RunKeepsInvariant | MqMessageService/TaskQueue.h:73-139 | Every interleaving keeps conservation, lock discipline, what a clear flag means and that a needed wakeup is under way |
| TaskQueue.FifoNoLoss | MqMessageService/TaskQueue.h:73-139 | pushed = processed ++ in flight ++ queued in every reachable state |
| TaskQueue.NoLostWakeup | MqMessageService/TaskQueue.h:117-123 | A sleeping worker has an empty queue and no stop request, or a notification is still owed; with none owed everything pushed was processed |
| TaskQueue.LockUsedCorrectly | MqMessageService/TaskQueue.h:113-139 | The worker never locks a mutex it owns nor unlocks one it does not |
| TaskQueue.LockErrorIfRestarted | MqMessageService/TaskQueue.h:117-137 | This rests on the run flag never rising again: a run after which raising it makes the worker lock twice |
| TaskQueue.StopStartsNothing | MqMessageService/TaskQueue.h:89-97 | Once the flag is down no further task is ever started, in any interleaving |
| TaskQueue.StoppedWorkerDescends | MqMessageService/TaskQueue.h:113-139 | After a stop every step of the worker decreases a measure and no other step increases it |
| TaskQueue.StoppedWorkerExits | MqMessageService/TaskQueue.h:54-65 | After a stop the worker ends within four steps of its own, and until then can move or is about to be notified |
| TaskQueueProgress.QueuedTaskIsStarted | MqMessageService/TaskQueue.h:113-139 | In every run, while nobody stops the queue, the head of a non-empty queue is the next task started, by the time the worker took four steps of its own in any interleaving; the worker can take one or is owed a notification |
| TaskQueueProgress.EverythingIsProcessed | MqMessageService/TaskQueue.h:113-139 | From every reachable state without a stop the worker alone ends with all pushed tasks processed in order |
| TaskQueueProgress.FirstTaskIsProcessed | MqMessageService/TaskQueue.h:43-84 | The first task pushed to a new queue is processed |
| TaskQueueProgress.StopEndsWorker | MqMessageService/TaskQueue.h:89-97 | A stop takes effect at once: nothing is started any more and the worker ends within four steps of its own, in any interleaving |
| TaskQueue.Queue.constructor | MqMessageService/TaskQueue.h:43-49 | Starts in the initial state |
| TaskQueue.Queue.PushToQueue | MqMessageService/TaskQueue.h:73-84 | The task goes to the end of the queue; returns the new size |
| TaskQueue.Queue.StopQueue | MqMessageService/TaskQueue.h:89-97 | One stop step |
| TaskQueue.Queue.NotifyAll | MqMessageService/TaskQueue.h:82 | Wakes a worker asleep in the condition wait and no other |
| TaskQueue.Queue.Worker | MqMessageService/TaskQueue.h:113-139 | One step of the worker, from one of its places to the next |
| TaskQueue.Queue.Execute | MqMessageService/TaskQueue.h:43-139 | A whole schedule of calls on the object is the run of the model, and keeps the invariant |
| RetryQueue.FailingTasksAreRetried | include/TaskQueue2.h:114-135 | Without external pops the i-th attempt, when there is one, is on the task indexed by the number of earlier successes; the removed tasks are the first pushed ones and the queue holds all others |
| RetryQueue.SuccessRemovesOwnTask | include/TaskQueue2.h:124-132 | A successful attempt removes the task it processed if and only if no pop came while it was processed |
| RetryQueue.PopInWindowLosesTask | include/TaskQueue2.h:104-110 | A run in which a task leaves the queue without ever being tried |
| RetryQueue.StopAllowsOneAttempt | include/TaskQueue2.h:80-90 | After a stop at most one attempt begins, and none if the worker is past its sleep |
| RetryQueue.ClearedFunctionIsNeverCalled | include/TaskQueue2.h:53-57 | No attempt begins once the destructor cleared the function |
| RetryQueue.StoppedWorkerExits | include/TaskQueue2.h:80-90 | The join of a stop can end: in any interleaving the worker takes at most four more steps of its own and has then ended |
| RetryQueueProgress.NextAttempt | include/TaskQueue2.h:119-134 | In every run without pop and stop, three steps of the worker after an attempt ended the next one has begun: on the same task after a failure, on the next in the queue after a success |
| RetryQueueProgress.QueuedTaskIsTried | include/TaskQueue2.h:119-127 | A worker that nobody stopped begins an attempt on the head of the queue within three steps of its own, in any interleaving without pop and stop |
| RetryQueueProgress.FirstTaskIsTried | include/TaskQueue2.h:43-75 | The first task pushed to a new queue is tried |
| RetryQueueProgress.EndedWasStopped | include/TaskQueue2.h:119-134 | In every run a worker that has ended was stopped |
| RetryQueueProgress.StopEndsWorker | include/TaskQueue2.h:53-90 | A stop takes effect at once: at most one attempt begins, the worker ends within four steps of its own, and the destructor then clears the function |
| RetryQueue.RunKeepsInvariant | include/TaskQueue2.h:65-135 | Every run, pops included, keeps pushed = removed ++ queued and the attempt under way on the head it began with |
| RetryQueue.Queue.PushToQueue | include/TaskQueue2.h:65-75 | The task goes to the end of the queue; returns the new size |
| RetryQueue.Queue.PopTask | include/TaskQueue2.h:104-110 | One external removal; returns the old head |
| RetryQueue.Queue.StopQueue | include/TaskQueue2.h:82-85 | The lock-held region of a stop: the flag goes down, nothing else changes |
| RetryQueue.Queue.ClearFunction | include/TaskQueue2.h:56 | Only after the worker's end |
| RetryQueue.Queue.Worker | include/TaskQueue2.h:114-135 | One step of the worker |
| RetryQueue.Queue.Execute | include/TaskQueue2.h:43-135 | A whole schedule of calls on the object is the run of the model; without pops failing tasks are retried in place and the queue holds all but the first tasks pushed, as many as succeeded |
| ZeroMqDelivery.EveryDeliveryAnswersTheLastRequest | ZeroMqService/ZeroMqService.cpp:192-348 | Every reply handed to the requester's callback answers the last request it transmitted, with the responder's latest post, made after the responder received that very request |
| ZeroMqDelivery.EveryRequestIsTheLatestPost | ZeroMqService/ZeroMqService.cpp:222-228 | Every transmitted request is the most recent post, and no post is transmitted twice |
| ZeroMqDelivery.EveryReplyIsPostedAfterItsRequest | ZeroMqService/ZeroMqService.cpp:308-330 | Every transmitted reply is the latest post and was posted after the request it answers was received on that socket: posts made while polling are never sent |
| ZeroMqDelivery.StepKeepsInvariant | ZeroMqService/ZeroMqService.cpp:100-348 | Every step of anyone keeps: one request or reply of the live socket outstanding at most, no request received twice, a waiting message is the latest post |
| ZeroMqDelivery.ReplyIsAlone | ZeroMqService/ZeroMqService.cpp:220-266 | The reply found by the poll is the only thing of that socket under way |
| ZeroMqSockets.SocketsObeyTheirRules | ZeroMqService/ZeroMqService.cpp:208-341 | In every run every socket keeps to the REQ or REP rules of ZeroMQ RFC 28/REQREP |
| ZeroMqSockets.ExchangesAlternate | ZeroMqService/ZeroMqService.cpp:220-330 | Between two requests sent (received) on one socket lies a reply delivered (sent) on it |
| ZeroMqSockets.EndedSocketIsNeverUsed | ZeroMqService/ZeroMqService.cpp:245-270 | After a timeout, an error or a close a socket carries no further exchange |
| ZeroMqHandshake.OpenReturnsAfterSocketIsUp | ZeroMqService/ZeroMqService.cpp:119-141 | For any number of calling threads an `open()` returns only after a `close()` called since, or after the worker brought a socket up since, with no other `open()` in between |
| ZeroMqHandshake.SingleOpenReturnsAfterSocketIsUp | ZeroMqService/ZeroMqService.cpp:119-141 | With one controlling thread it returns only after the worker brought a socket up since that very call |
| ZeroMqHandshake.CloseReleasesOpen | ZeroMqService/ZeroMqService.cpp:150-154 | From any state in which an `open()` waits for a service required open, a `close()` makes its condition true, so that it can return on waking, whether a socket is up or not |
| ZeroMqHandshake.OpenReturnsWithoutSocket | ZeroMqService/ZeroMqService.cpp:119-164 | A run in which `open()` returns and no socket ever came up |
| ZeroMqHandshake.CloseReturnsAfterSocketIsDown | ZeroMqService/ZeroMqService.cpp:143-164 | For any number of calling threads a `close()` returns only after an `open()` called since, or after the worker closed its socket since, with no connection and no other `close()` in between |
| ZeroMqHandshake.SingleCloseReturnsAfterSocketIsDown | ZeroMqService/ZeroMqService.cpp:143-164 | With one controlling thread it returns only after the worker closed its socket since that very call, and no socket came up since |
| ZeroMqHandshake.OpenReleasesClose | ZeroMqService/ZeroMqService.cpp:126-131 | From any state in which a `close()` waits, an `open()` of another thread makes its condition true, so that it can return on waking, with the socket not closed |
| ZeroMqHandshake.SocketsComeUpOnlyWhileOpen | ZeroMqService/ZeroMqService.cpp:199-218 | A socket comes up only after an `open()` with no `close()` since: once closed it stays closed until the next `open()` |
| ZeroMqHandshake.CloseCanReturnOnlyFromSocket | ZeroMqService/ZeroMqService.cpp:256-265 | Unless another thread opens the service, a waiting `close()` can still return if and only if the worker holds a socket |
| ZeroMqHandshake.TimeoutThenCloseHangs | ZeroMqService/ZeroMqService.cpp:245-264 | A run, one reply timeout long, that reaches a `close()` which never returns |
| ZeroMqProgress.ReplyIsDelivered | ZeroMqService/ZeroMqService.cpp:234-265 | A reply that the poll finds is handed to the callback as the very next event, nothing times out, and the socket is kept if and only if the service is required open and not told to end |
| ZeroMqProgress.NothingTimesOut | ZeroMqService/ZeroMqService.cpp:245-264 | A poll that finds nothing reports a timeout and gives the socket up |
| ZeroMqProgress.TimedOutOnlyOnNothing | ZeroMqService/ZeroMqService.cpp:245-252 | A timeout is reported only then |
| ZeroMqProgress.PostIsAccepted | ZeroMqService/ZeroMqService.cpp:100-117 | A message is accepted if and only if the service is required open, and then waits in place of any earlier one |
| ZeroMqProgress.WaitingMessageIsSent | ZeroMqService/ZeroMqService.cpp:222-232 | A waiting message is transmitted on the idle socket and polled for |
| ZeroMqProgress.RequestIsReceived | ZeroMqService/ZeroMqService.cpp:310-323 | A request that arrives is handed to the callback, and earlier posts are forgotten |
| ZeroMqProgress.PostedAnswerIsSent | ZeroMqService/ZeroMqService.cpp:321-332 | A message posted while the responder answers is transmitted to the asker, and the socket is kept if and only if the service is wanted |
| ZeroMqProgress.WantedIsConnected | ZeroMqService/ZeroMqService.cpp:201-218 | A worker that waits connects or binds a fresh socket when the service is required open |
| ZeroMqProgress.OpenIsRequired | ZeroMqService/ZeroMqService.cpp:119-132 | An `open()` of a closed service requires it open and waits |
| ZeroMqProgress.CloseIsRequired | ZeroMqService/ZeroMqService.cpp:143-156 | A `close()` of an open one requires it closed and waits |
| ZeroMqProgress.SecondCallChangesNothing | ZeroMqService/ZeroMqService.cpp:126-134 | `open()` of an open service and `close()` of a closed one change nothing |
| ZeroMqProgress.NothingToDo | ZeroMqService/ZeroMqService.cpp:201-341 | A worker with nothing to do keeps its place, its socket and its state |
| ZeroMqProgress.UnwantedWorkerLeaves | ZeroMqService/ZeroMqService.cpp:256-265 | A worker that is not wanted and has no message to transmit closes its socket |
| ZeroMqProgress.ErrorGivesSocketUp | ZeroMqService/ZeroMqService.cpp:268-270 | A library error takes the socket away, loses the message under way and sends the worker back to its wait |
| ZeroMqProgress.FailedConnectionIsRetried | ZeroMqService/ZeroMqService.cpp:199-270 | A connection that fails is tried again |
| ZeroMqProgress.RoundTrip | ZeroMqService/ZeroMqService.cpp:192-348 | From every state in which both services are up, every question reaches the responder's callback and every answer the requester's in six events, and both are up again |
| ZeroMqProgress.DeliveringRun | ZeroMqService/ZeroMqService.cpp:100-348 | For every question and answer a run from the start that ends with the delivery of the answer |
| ZeroMqProgress.DeactivateIsHeeded | ZeroMqService/ZeroMqService.cpp:414 | Deactivation takes effect at once, also during a poll |
| ZeroMqProgress.DeactivatedWorkerEnds | ZeroMqService/ZeroMqService.cpp:199-267 | In any interleaving a deactivated worker ends within three steps of its own |
| ZeroMqProgress.WorkersEndOnlyWhenTold | ZeroMqService/ZeroMqService.cpp:199-348 | In every run no timeout, error or close ends a worker, only its deactivation |
| ZeroMqService.Service.constructor | ZeroMqService/ZeroMqService.cpp:91-94 | Starts closed, with an empty mailbox and a running worker |
| ZeroMqService.Service.SendMessage | ZeroMqService/ZeroMqService.cpp:100-117 | Replaces the waiting message, or refuses when closed |
| ZeroMqService.Service.BeginOpen | ZeroMqService/ZeroMqService.cpp:119-132 | `open()` up to its wait, by any thread; tells whether it has to wait, and changes nothing if already open |
| ZeroMqService.Service.EndOpen | ZeroMqService/ZeroMqService.cpp:134-138 | One waiting thread leaves once a socket is up |
| ZeroMqService.Service.BeginClose | ZeroMqService/ZeroMqService.cpp:143-156 | `close()` up to its wait, by any thread; tells whether it has to wait, and changes nothing if already closed |
| ZeroMqService.Service.EndClose | ZeroMqService/ZeroMqService.cpp:158-161 | One waiting thread leaves once the socket is down |
| ZeroMqService.Service.WorkerReq | ZeroMqService/ZeroMqService.cpp:192-274 | One region of the REQ worker |
| ZeroMqService.Service.WorkerRep | ZeroMqService/ZeroMqService.cpp:276-350 | One region of the REP worker |
| ZeroMqPair.Pair.Execute | ZeroMqService/ZeroMqService.cpp:100-350 | Any schedule of calls, workers, losses and other clients on a requester and a responder object is a run of the system: every reply delivered answers the last request sent, every socket keeps to its rules, and every return of `open()` and `close()` follows its socket or a call of the other kind |
| ZeroMqPair.RunReturns | ZeroMqService/ZeroMqService.cpp:119-164 | In every run each return of `open()` or `close()` has its own call before it, and a connection or closure in between unless a call of the other kind is |
| ZeroMqPair.RunDelivers | ZeroMqService/ZeroMqService.cpp:192-348 | In every run every delivered reply has its chain back to the last request transmitted |
| FleetProvisioning.NoPromiseIsSetTwice | AwsFleetProv/AwsFleetProv.cpp:294-297 | In no run, with any order of broker answers and any reuse of tokens by anyone, does an unguarded `set_value` hit a promise already set |
| FleetProvisioning.StepKeepsContexts | MqttService/MqttService.cpp:725-733 | Each context of the run is stored at most once and is gone from the tables when its promise is set |
| FleetProvisioning.TopicsFollowRequests | AwsFleetProv/AwsFleetProv.cpp:371-442 | Each slot listens on the topic of its own request followed by its verdict, with the register topics written out for the template |
| FleetProvisioning.AnswersFollowTopics | AwsFleetProv/AwsFleetProv.cpp:361-590 | A message counts for the request whose topic it came on, with the verdict of that topic |
| FleetProtocol.StepKeepsProtocol | AwsFleetProv/AwsFleetProv.cpp:288-699 | Every step keeps: promises behind the worker are true, responses are decided by the first answering message, confirmations follow their publishes, token and certificate are those last given |
| FleetRegistration.RegisterRestsOnEvidence | AwsFleetProv/AwsFleetProv.cpp:288-681 | RegisterThing is published only after both key subscriptions were confirmed, then CreateKeys was published and confirmed, the first response was an acceptance with its files written and both register subscriptions were confirmed; its certificate and token are the pair of one accepted message with its files written, the latest |
| FleetOutcome.OnlyTheFirstAnswerCounts | AwsFleetProv/AwsFleetProv.cpp:361-366 | A message leaves promises, worker and contexts alone if and only if it is not delivered or its request has its response |
| FleetOutcome.LaterResponsesChangeNothing | AwsFleetProv/AwsFleetProv.cpp:585-590 | A message inserted anywhere leaves promises, worker, contexts and outcomes of every continuation as they were if and only if it is not delivered or its request has its response; the pair at hand is the subject of LaterResponsesKeepThePair |
| FleetMessages.LaterResponsesKeepThePair | AwsFleetProv/AwsFleetProv.cpp:319-366 | It leaves the certificate and the token of every continuation as they were too if and only if it is not delivered, or its request has its response and it does not give another pair |
| FleetMessages.MessageEndsProcess | AwsFleetProv/AwsFleetProv.cpp:309-351 | A message ends the process if and only if it is delivered and lacks a field, a file or a parse that its handler needs; the first one that lacks nothing sets the response of its request to the verdict of its topic |
| FleetMessages.CrashedByThrownMessage | AwsFleetProv/AwsFleetProv.cpp:288-699 | In every run the process has ended if and only if some handler was called with a message that makes it throw; no completion ends it |
| FleetMessages.ProvisionedNeverCrashes | AwsFleetProv/AwsFleetProv.cpp:695-698 | A provisioned run is not ended by anything that comes later |
| FleetMessages.FilesBelongToThePair | AwsFleetProv/AwsFleetProv.cpp:339-359 | In a provisioned run the certificate files on disk are those of the pair RegisterThing carried if and only if no keys message was handled after that publish, or the last one that was repeats the pair |
| FleetFailure.BrokenPromiseEndsRun | AwsFleetProv/AwsFleetProv.cpp:448-708 | From the check of a promise that was not kept, six steps end the run with one error, unmarked data and no handler on a topic it had subscribed |
| FleetFailure.RejectionEndsRun | AwsFleetProv/AwsFleetProv.cpp:396-496 | A complete rejection that comes first ends the run with one error |
| FleetFailure.CatchBlockEnds | AwsFleetProv/AwsFleetProv.cpp:700-708 | The catch block takes back exactly the handlers of its topics and reports one error |
| FleetFailure.RefusedCallFallsIntoCatchBlock | AwsFleetProv/AwsFleetProv.cpp:384-700 | A refused subscribe or unsubscribe, or a publish without a client, falls into the catch block at once |
| FleetFailure.NoConnectionIsReported | AwsFleetProv/AwsFleetProv.cpp:193-245 | Without certificate files there is one error and no teardown, without a connection one error and the teardown |
| FleetOutcome.OneOutcome | AwsFleetProv/AwsFleetProv.cpp:169-254 | A finished run reported exactly one outcome if and only if teardown did not throw, else an error after it; the data are marked provisioned exactly when the first outcome is success, and then every promise was true |
| FleetOutcome.ProvisionedByAcceptance | AwsFleetProv/AwsFleetProv.cpp:510-534 | Provisioned only if the first register response was an acceptance whose file was written and parsed, and RegisterThing had been handed over |
| FleetOutcome.ProvisionedLeavesNothing | AwsFleetProv/AwsFleetProv.cpp:695-698 | A provisioned run leaves no handler and no context of its own in the MQTT service |
| FleetOutcome.CancelledStopsListening | AwsFleetProv/AwsFleetProv.cpp:700-708 | Once a run has ended a handler of its own is left only if an unsubscribe of its catch block was refused, and then only one not unsubscribed before |
| FleetProgress.WaitCanEnd | AwsFleetProv/AwsFleetProv.cpp:447-693 | Each wait of the worker can end, with no stranger answered under its token, if and only if its promise is set, or for a response one of the two handlers is in place, or the context of its call is in place and the library still owes the answer |
| FleetProgress.StuckForever | AwsFleetProv/AwsFleetProv.cpp:447-693 | Without a context, and for a response without a handler, the worker stays where it is in every continuation whatsoever and reports nothing |
| FleetProgress.CallCanBeAnswered | MqttService/MqttService.cpp:511-1072 | Once the worker is past a subscribe or publish, its promise can be set, now or ever, if and only if it is set or its context is in place and the library still owes the answer |
| FleetProgress.StoredCallCanBeAnswered | MqttService/MqttService.cpp:511-523 | When the context of a subscribe or publish is stored, its promise can ever be set if and only if the library still owes the answer under that token and, for a publish, the map has room |
| FleetProgress.ReusedTokenLosesSubscribe | MqttService/MqttService.cpp:521 | Another subscribe under the token of a pending one leaves its promise unset for ever |
| FleetProgress.EmptyAnswerIsLost | MqttService/MqttService.cpp:1005 | An answer without a response is spent and leaves its promise unset for ever |
| FleetProgress.ResponseCanCome | AwsFleetProv/AwsFleetProv.cpp:493-690 | The wait for a response that has not come can end if and only if one of its two handlers is still in place |
| FleetProgress.PublishCanBeConfirmed | MqttService/MqttService.cpp:908-928 | When the context of an accepted publish is stored, the worker can get past its wait if and only if the library still owes the answer under that token and the map is not full |
| FleetProgress.EarlyAnswerIsLost | MqttService/MqttService.cpp:908-928 | From any state at a publish, an answer that comes between acceptance and store leaves a wait that cannot end |
| FleetProgress.ReusedTokenLosesPublish | MqttService/MqttService.cpp:920-926 | When another publish is given the token of the one waited for, the worker can go on if and only if the map was full |
| FleetProgress.LostPublishWaitsForever | MqttService/MqttService.cpp:930-935 | After a publish that the library refused, no run whatever lets the worker go on or report an outcome |
| FleetProgress.UnstoredPublishWaitsForever | MqttService/MqttService.cpp:920-923 | Nor after one that found the map full |
| FleetSuccess.LosingRunsExist | AwsFleetProv/AwsFleetProv.cpp:457-487 | For every template a run from the start whose first publish is refused, and one whose first publish is answered before its context is stored: neither can go on |
| FleetSuccess.CrashingRunExists | AwsFleetProv/AwsFleetProv.cpp:307-322 | For every template a run from the start that a message without a document ends |
| FleetSuccess.FilesOfAnotherPair | AwsFleetProv/AwsFleetProv.cpp:339-366 | For every template, limit and pair a run from the start that ends provisioned after a later keys message with that pair: its files match the registered pair if and only if the pair repeats it |
| FleetSuccess.RegisteredWithLaterPair | AwsFleetProv/AwsFleetProv.cpp:659-667 | For every template, limit and pair a run from the start whose publish carries that pair although an earlier response settled the promise |
| FleetSuccess.ReachRegisterThing | AwsFleetProv/AwsFleetProv.cpp:288-681 | From the start some run reaches the publish of RegisterThing |
| FleetSuccess.ProvisioningCanSucceed | AwsFleetProv/AwsFleetProv.cpp:169-254 | For every template and buffer size some run ends provisioned, with one outcome and nothing refused |
| FleetService.RunIsASchedule | MqttService/MqttService.cpp:495-1139 | The tables and handlers of every provisioning run are those of the MQTT service after the schedule of calls and answers that the run makes |
| FleetWorker.Provisioner.constructor | AwsFleetProv/AwsFleetProv.cpp:256-290 | Starts in the initial state, with the four topics of the template |
| FleetWorker.Provisioner.SetValue | AwsFleetProv/AwsFleetProv.cpp:361-366 | The first value stays; throws if and only if there was one |
| FleetWorker.Provisioner.OnCompleted | AwsFleetProv/AwsFleetProv.cpp:294-297 | The unguarded `set_value` of a completion callback, whose exception would end the process |
| FleetWorker.Provisioner.OnKeysAccepted | AwsFleetProv/AwsFleetProv.cpp:300-369 | Field by field, keeping what was read before a throw, which ends the process; answers true when the files are written |
| FleetWorker.Provisioner.OnRejected | AwsFleetProv/AwsFleetProv.cpp:396-428 | Answers false when all three fields are there, else throws |
| FleetWorker.Provisioner.OnRegisterAccepted | AwsFleetProv/AwsFleetProv.cpp:510-534 | Answers true when the file is written and parsed, else throws |
| FleetWorker.Provisioner.Subscribe | AwsFleetProv/AwsFleetProv.cpp:382-384 | Has the request accepted, or falls into the catch block |
| FleetWorker.Provisioner.StoreAccepted | MqttService/MqttService.cpp:515-524 | The locked region in which an accepted request leaves its context, and a subscribe its handler |
| FleetWorker.Provisioner.OnAnswered | MqttService/MqttService.cpp:725-733 | The library's one answer to a request: calls the context under its token, if it is there by now |
| FleetWorker.Provisioner.Publish | AwsFleetProv/AwsFleetProv.cpp:657-680 | Publishes the current token and certificate; only a missing client throws |
| FleetWorker.Provisioner.Unsubscribe | AwsFleetProv/AwsFleetProv.cpp:695-698 | Erases the handler, or falls into the catch block |
| FleetWorker.Provisioner.MakeProvisioning | AwsFleetProv/AwsFleetProv.cpp:288-699 | One instruction of the script |
| FleetWorker.Provisioner.RunWorker | AwsFleetProv/AwsFleetProv.cpp:169-254 | The worker before and after the script, and the catch block of the script |
| FleetWorker.Provisioner.Execute | AwsFleetProv/AwsFleetProv.cpp:169-711 | Any schedule of worker, broker and others on the object is a run of the protocol: no promise is set twice, one outcome is reported unless teardown threw, and success means every promise was kept |
| MakeDirectories.LooksLikeFolder | AwsFleetProv/AwsFleetProv.cpp:66 | The bit test holds exactly for directories, block devices and sockets |
| MakeDirectories.MakeDirectory | AwsFleetProv/AwsFleetProv.cpp:83-115 | For any path the result is 0 if and only if, in the tree before the call, a directory to start from is there, and at the place of each level either nothing stands and the kernel refuses nothing, or a directory does, at the last one anything the folder test takes for one; levels are passed as far as they can be; the tree is left well made, and on 0 every ancestor is a directory and the target one exactly if nothing else passed for a folder there |
| MakeDirectories.EnterLevel | AwsFleetProv/AwsFleetProv.cpp:97-111 | The text built so far stands for the names passed, and one round makes the next |
| MakeDirectories.PassedExactly | AwsFleetProv/AwsFleetProv.cpp:95-112 | For every path, `.` and `..` included, and every number of levels: they are passed if and only if the tree before the call, the path and the refusals let them |
| MakeDirectories.NamesOfJoined | AwsFleetProv/AwsFleetProv.cpp:95-99 | The names of two paths with a slash between them are the names of both, one after the other |
| MakeDirectories.SlashesNameNothing | AwsFleetProv/AwsFleetProv.cpp:95-99 | Slashes in a row, at the front and at the end name nothing, and a text without a slash is one name |
| MakeDirectories.WherePathsStart | AwsFleetProv/AwsFleetProv.cpp:87-90 | A path with a leading slash starts at the root whatever the working directory, any other at the working directory |
| MakeDirectories.MadeLevelsReached | AwsFleetProv/AwsFleetProv.cpp:95-112 | However far the code got, the levels passed are there and exactly the missing places on the way were created, each once, in order |
| MakeDirectories.GrownTree | AwsFleetProv/AwsFleetProv.cpp:103-109 | Creating parents first keeps the tree closed under parents, touches nothing that was there and adds exactly the created directories |
| MakeDirectories.CreatedOnTheWay | AwsFleetProv/AwsFleetProv.cpp:100-104 | Every created path is where some passed levels lead: an ancestor of the target or the target |
| MakeDirectories.WhateverIsMade | AwsFleetProv/AwsFleetProv.cpp:83-115 | For any path and tree: the tree stays closed under parents, nothing that was there changes, the new paths are exactly the created ones, each a directory at a level passed and made after its parent, and every level passed, all of them with result 0, is there |
| MakeDirectories.SuccessMakesAncestors | AwsFleetProv/AwsFleetProv.cpp:114 | With result 0 every ancestor on the way is a directory |
| MakeDirectories.SuccessMakesTarget | AwsFleetProv/AwsFleetProv.cpp:103-114 | With result 0 the target is a directory if and only if no block device and no socket stood at its place, read off the path, before the call |
| MakeDirectories.WalkLeadsToPlace | AwsFleetProv/AwsFleetProv.cpp:95-104 | A walk that gets anywhere gets to the place read off the path alone |
| MakeDirectories.BlockDeviceIsTakenForFolder | AwsFleetProv/AwsFleetProv.cpp:66 | A tree and a path for which the result is 0, nothing is created and the target is no directory |

## Left out

- Curl, cpprest, syslog, websocket, command, log-stream and operating-system message-queue plug-ins: wrappers and callback plumbing over libraries.
- Paho, ZeroMQ and rapidjson internals, TLS options, file contents, JSON text: results are parameters of the actions, documents are the members read from them.
- Tracing, interface attachment, configuration, code under `#if 0`, and the Windows branches of mkdir.
- Callbacks that call back into the service they were called from, most of which hold a mutex; callbacks that throw, except those of provisioning, which are modelled as the end of the process.
- Liveness: that a poll, a broker answer or a promise does come, and that `close()` or `deactivate()` does return. What is proved is when they can and when they cannot.
- ZeroMqService.Service.WorkerReq: a blocking receive that returns nothing after a positive poll is not modelled, nor are `isOpen` and registering callbacks.
- MqttService.Service.MsgArrived: an empty filter in the map makes the source read before the start of a string and is excluded; the order of the map is any order rather than the sorted one; topics and messages are strings of characters, not bytes.
- TopicFilters.DispatchAgainstStandard: filters are the well-formed ones of section 4.7.1 and topics carry no wildcard; section 4.7.2 is the subject of TopicFilters.DispatchOfSystemTopics.
- MqttService.Service.Create: `destroy`, `connect`, `disconnect` and reconnection are not modelled; a client, once created, stays, and schedules start with it.
- RetryQueue.Queue.StopQueue: the notification is left out, as the worker's wait ends by itself, and the join is a separate matter: RetryQueue.StoppedWorkerExits shows that it can end, and clearing the function waits for it.
- RetryQueue.Queue.PopTask: `pop()` of an empty queue is undefined in the source and is excluded; a removal by the worker from an empty queue is recorded.
- FleetProvisioning.StepKeepsContexts: unsubscribe contexts are left out, their callback only logs.
- FleetOutcome.OneOutcome: both handlers are taken to be set and not to throw; the wait for the connection either succeeds or times out; one launch of the worker is modelled, starting unprovisioned.
- FleetRegistration.RegisterRestsOnEvidence: nothing ties a message to this run's own request, as nothing in the source does; the first response may be older than the publish, and a later keys response replaces the pair. The worker reads token and certificate without the mutex under which a handler writes them, one after the other and before its files; such concurrent access to a string has no defined outcome in C++, and the model takes handler and publish as one step each, so a pair mixed in that window, or one sent before its files are written, is not among its runs.
- FleetWorker.Provisioner.Publish: reads token and certificate in one step, for the same reason.
- FleetOutcome.CancelledStopsListening: contexts of a cancelled run may stay in the service although their callbacks refer to variables of a function that has returned; the model lets such callbacks set promises nobody reads.
- MakeDirectories.MakeDirectory: symbolic links and changes by other processes during the call are not modelled; permissions and the like appear only as a set of paths the kernel refuses to create.
- TaskQueue.Queue.Execute: the memory order of the unlocked read of the run flag; reads see the latest write.
