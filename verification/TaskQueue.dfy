/** The FIFO task queue: pushers, a stopper and one worker thread that share a mutex, a
    condition variable and two flags. A step is one access of shared state or one lock
    operation of the worker, or one lock-held region of a caller; a run is any interleaving. */
module TaskQueue {

  /** Where the worker thread is. `Blocked` is inside the condition wait, mutex released. */
  datatype Place<T> =
    | OuterTest
    | Locking
    | WaitTest
    | Blocked(woken: bool)
    | InnerTest
    | Processing(task: T)
    | Relocking
    | Exited

  datatype State<T> = State(
    tasks: seq<T>,
    taskPushed: bool,
    runWorkerThread: bool,
    place: Place<T>,
    workerOwnsLock: bool,
    owed: nat,          // callers that released the mutex and have yet to notify
    lockError: bool,    // the worker locked a mutex it owned or unlocked one it did not
    pushed: seq<T>,     // history: every task pushed
    processed: seq<T>)  // history: every task whose processing function returned

  datatype Action<T> =
    | Push(task: T)   // pushToQueue up to the release of the mutex
    | Stop            // stopQueue or the destructor up to the release of the mutex
    | Notify          // the notify_all of one such caller
    | WakeUp          // the condition wait of the worker returns spuriously
    | Work            // the worker's next step, when it can take one

  function Initial<T>(): State<T> {
    State([], false, true, OuterTest, false, 0, false, [], [])
  }

  function Lock<T>(s: State<T>): State<T> {
    s.(workerOwnsLock := true, lockError := s.lockError || s.workerOwnsLock)
  }

  function Unlock<T>(s: State<T>): State<T> {
    s.(workerOwnsLock := false, lockError := s.lockError || !s.workerOwnsLock)
  }

  /** The worker can move everywhere but asleep in the condition wait or after its end: no
      caller keeps the mutex across its own step. */
  predicate WorkerCanMove<T>(s: State<T>) {
    s.place != Exited && s.place != Blocked(false)
  }

  function WorkerStep<T>(s: State<T>): State<T> {
    match s.place
    case OuterTest =>
      if s.runWorkerThread then s.(place := Locking)
      else s.(place := Exited, workerOwnsLock := false) // a lock still owned is released on scope exit
    case Locking => Lock(s).(place := WaitTest)
    case WaitTest =>
      if s.taskPushed then s.(taskPushed := false, place := InnerTest)
      else Unlock(s).(place := Blocked(false))
    case Blocked(woken) => if woken then Lock(s).(place := WaitTest) else s
    case InnerTest =>
      if !s.runWorkerThread then s.(place := OuterTest)
      else if s.tasks != [] then Unlock(s).(tasks := s.tasks[1..], place := Processing(s.tasks[0]))
      else Unlock(s).(place := OuterTest)
    case Processing(task) => s.(processed := s.processed + [task], place := Relocking)
    case Relocking => Lock(s).(place := InnerTest)
    case Exited => s
  }

  /** An action that is not possible leaves the state as it is: callers wait for the mutex. */
  function Step<T>(s: State<T>, a: Action<T>): State<T> {
    match a
    case Push(task) =>
      if s.workerOwnsLock then s
      else s.(tasks := s.tasks + [task], taskPushed := true, owed := s.owed + 1, pushed := s.pushed + [task])
    case Stop =>
      if s.workerOwnsLock then s
      else s.(runWorkerThread := false, taskPushed := true, owed := s.owed + 1)
    case Notify =>
      if s.owed == 0 then s
      else s.(owed := s.owed - 1, place := if s.place.Blocked? then Blocked(true) else s.place)
    case WakeUp => if s.place.Blocked? then s.(place := Blocked(true)) else s
    case Work => WorkerStep(s)
  }

  function Run<T>(s: State<T>, actions: seq<Action<T>>): State<T>
    decreases |actions|
  {
    if actions == [] then s else Run(Step(s, actions[0]), actions[1..])
  }

  function InFlight<T>(s: State<T>): seq<T> {
    if s.place.Processing? then [s.place.task] else []
  }

  /** Every task whose processing has begun, in order. */
  function Started<T>(s: State<T>): seq<T> {
    s.processed + InFlight(s)
  }

  // ---- The invariant ----

  predicate LockDiscipline<T>(s: State<T>) {
    && !s.lockError
    && (s.place.WaitTest? || s.place.InnerTest? ==> s.workerOwnsLock)
    && (s.workerOwnsLock ==> s.place.WaitTest? || s.place.InnerTest? || (s.place.OuterTest? && !s.runWorkerThread))
  }

  /** Between the two lock regions of the worker, a clear flag means nothing to do. */
  predicate FlagTellsAll<T>(s: State<T>) {
    !s.taskPushed &&
    (s.place.Locking? || s.place.WaitTest? || s.place.Blocked? || (s.place.OuterTest? && !s.workerOwnsLock))
    ==> s.tasks == [] && s.runWorkerThread
  }

  predicate WakeUpUnderWay<T>(s: State<T>) {
    s.place == Blocked(false) && s.taskPushed ==> s.owed > 0
  }

  ghost predicate Invariant<T>(s: State<T>) {
    && s.pushed == Started(s) + s.tasks
    && LockDiscipline(s)
    && FlagTellsAll(s)
    && WakeUpUnderWay(s)
  }

  lemma StepKeepsInvariant<T>(s: State<T>, a: Action<T>)
    requires Invariant(s)
    ensures Invariant(Step(s, a))
  {
    if a.Work? && s.place.InnerTest? && s.runWorkerThread && s.tasks != [] {
      assert s.tasks == [s.tasks[0]] + s.tasks[1..];
    }
  }

  lemma {:induction false} RunKeepsInvariant<T>(s: State<T>, actions: seq<Action<T>>)
    requires Invariant(s)
    ensures Invariant(Run(s, actions))
    decreases |actions|
  {
    if actions != [] {
      StepKeepsInvariant(s, actions[0]);
      RunKeepsInvariant(Step(s, actions[0]), actions[1..]);
    }
  }

  // ---- Safety over every run ----

  /** In every reachable state the pushed tasks are the processed ones, the one in flight and
      the queued ones, in that order: FIFO, nothing lost, nothing twice. */
  lemma FifoNoLoss<T>(actions: seq<Action<T>>)
    ensures var s := Run(Initial<T>(), actions);
            s.pushed == s.processed + InFlight(s) + s.tasks
  {
    RunKeepsInvariant(Initial<T>(), actions);
  }

  /** No lost wakeup: a worker asleep has either nothing to do or a notification coming; once
      every caller has notified, asleep means that every pushed task has been processed. */
  lemma NoLostWakeup<T>(actions: seq<Action<T>>)
    ensures var s := Run(Initial<T>(), actions);
            s.place == Blocked(false) ==>
              && (!s.taskPushed ==> s.tasks == [] && s.runWorkerThread)
              && (s.taskPushed ==> s.owed > 0)
              && (s.owed == 0 ==> s.processed == s.pushed && s.runWorkerThread)
  {
    RunKeepsInvariant(Initial<T>(), actions);
  }

  /** The worker's lock is used correctly in every run: it never locks a mutex it owns and
      never unlocks one it does not own. */
  lemma LockUsedCorrectly<T>(actions: seq<Action<T>>)
    ensures !Run(Initial<T>(), actions).lockError
  {
    RunKeepsInvariant(Initial<T>(), actions);
  }

  /** This rests on the run flag never coming back: were it set again before the worker's
      outer test, the worker would lock the mutex it still owns. */
  lemma LockErrorIfRestarted<T>() returns (actions: seq<Action<T>>, restarted: State<T>)
    ensures restarted == Run(Initial<T>(), actions).(runWorkerThread := true)
    ensures Run(restarted, [Work, Work]).lockError
  {
    // Stopped between its outer test and its first lock, the worker leaves the inner loop locked.
    actions := [Work, Stop, Work, Work, Work];
    var s1 := Step(Initial<T>(), Work);
    var s2 := Step(s1, Stop);
    var s3 := Step(Step(s2, Work), Work);
    assert Run(s3, [Work]) == Step(s3, Work);
    assert actions[1..] == [Stop, Work, Work, Work];
    assert Run(s1, [Stop, Work, Work, Work]) == Run(s2, [Work, Work, Work]);
    assert Run(s2, [Work, Work, Work]) == Run(Step(s2, Work), [Work, Work]);
    restarted := Run(Initial<T>(), actions).(runWorkerThread := true);
    assert Run(restarted, [Work, Work]) == Run(Step(restarted, Work), [Work]);
  }

  // ---- After a stop ----

  lemma StoppedStepStartsNothing<T>(s: State<T>, a: Action<T>)
    requires !s.runWorkerThread
    ensures !Step(s, a).runWorkerThread && Started(Step(s, a)) == Started(s)
  {
  }

  /** Once the stop has released the mutex, no further task is ever started. */
  lemma {:induction false} StopStartsNothing<T>(s: State<T>, actions: seq<Action<T>>)
    requires !s.runWorkerThread
    ensures var s' := Run(s, actions); !s'.runWorkerThread && Started(s') == Started(s)
    decreases |actions|
  {
    if actions != [] {
      StoppedStepStartsNothing(s, actions[0]);
      StopStartsNothing(Step(s, actions[0]), actions[1..]);
    }
  }

  /** Steps the worker still needs to reach its end after a stop. */
  function StepsLeft<T>(s: State<T>): nat {
    match s.place
    case Exited => 0
    case OuterTest => 1
    case InnerTest => 2
    case WaitTest => 3
    case Relocking => 3
    case Locking => 4
    case Blocked(_) => 4
    case Processing(_) => 4
  }

  /** Steps that the worker takes in a run. */
  function WorkerMoves<T>(s: State<T>, actions: seq<Action<T>>): nat
    decreases |actions|
  {
    if actions == [] then 0
    else (if actions[0].Work? && WorkerCanMove(s) then 1 else 0) + WorkerMoves(Step(s, actions[0]), actions[1..])
  }

  lemma StoppedStepDescends<T>(s: State<T>, a: Action<T>)
    requires Invariant(s) && !s.runWorkerThread
    ensures StepsLeft(Step(s, a)) + (if a.Work? && WorkerCanMove(s) then 1 else 0) <= StepsLeft(s)
  {
  }

  lemma {:induction false} StoppedWorkerDescends<T>(s: State<T>, actions: seq<Action<T>>)
    requires Invariant(s) && !s.runWorkerThread
    ensures StepsLeft(Run(s, actions)) + WorkerMoves(s, actions) <= StepsLeft(s)
    decreases |actions|
  {
    if actions != [] {
      StoppedStepDescends(s, actions[0]);
      StepKeepsInvariant(s, actions[0]);
      StoppedWorkerDescends(Step(s, actions[0]), actions[1..]);
    }
  }

  /** After a stop, in any interleaving, the worker has ended once it took four steps of its
      own; until then it can move, or sleeps with a notification on its way. */
  lemma StoppedWorkerExits<T>(before: seq<Action<T>>, after: seq<Action<T>>)
    requires !Run(Initial<T>(), before).runWorkerThread
    ensures var s := Run(Initial<T>(), before);
            var s' := Run(s, after);
            && (WorkerMoves(s, after) >= 4 ==> s'.place.Exited?)
            && WorkerMoves(s, after) <= 4
            && (!s'.place.Exited? ==> WorkerCanMove(s') || (s'.owed > 0 && WorkerCanMove(Step(s', Notify))))
  {
    var s := Run(Initial<T>(), before);
    RunKeepsInvariant(Initial<T>(), before);
    StoppedWorkerDescends(s, after);
    RunKeepsInvariant(s, after);
    StopStartsNothing(s, after);
  }

  // ---- The queue object ----

  class Queue<T> {
    var taskQueue: seq<T>
    var taskPushed: bool
    var runWorkerThread: bool
    var place: Place<T>
    var workerOwnsLock: bool
    var owed: nat
    var lockError: bool
    ghost var pushed: seq<T>
    ghost var processed: seq<T>

    ghost function View(): State<T> reads this {
      State(taskQueue, taskPushed, runWorkerThread, place, workerOwnsLock, owed, lockError, pushed, processed)
    }

    constructor ()
      ensures View() == Initial()
    {
      taskQueue := [];
      taskPushed := false;
      runWorkerThread := true;
      place := OuterTest;
      workerOwnsLock, owed, lockError := false, 0, false;
      pushed, processed := [], [];
    }

    method PushToQueue(task: T) returns (size: nat)
      requires !workerOwnsLock
      modifies this
      ensures View() == Step(old(View()), Push(task))
      ensures taskQueue == old(taskQueue) + [task] && pushed == old(pushed) + [task]
      ensures size == |taskQueue|
    {
      taskQueue := taskQueue + [task];
      size := |taskQueue|;
      taskPushed := true;
      owed := owed + 1;
      pushed := pushed + [task];
    }

    method StopQueue()
      requires !workerOwnsLock
      modifies this
      ensures View() == Step(old(View()), Stop)
    {
      runWorkerThread := false;
      taskPushed := true;
      owed := owed + 1;
    }

    method NotifyAll()
      requires owed > 0
      modifies this
      ensures View() == Step(old(View()), Notify)
    {
      owed := owed - 1;
      if place.Blocked? {
        place := Blocked(true);
      }
    }

    method LockMutex()
      modifies this`workerOwnsLock, this`lockError
      ensures workerOwnsLock && lockError == (old(lockError) || old(workerOwnsLock))
    {
      if workerOwnsLock {
        lockError := true;
      }
      workerOwnsLock := true;
    }

    method UnlockMutex()
      modifies this`workerOwnsLock, this`lockError
      ensures !workerOwnsLock && lockError == (old(lockError) || !old(workerOwnsLock))
    {
      if !workerOwnsLock {
        lockError := true;
      }
      workerOwnsLock := false;
    }

    /** The worker function, from one of its places to the next. */
    method Worker()
      modifies this
      ensures View() == Step(old(View()), Work)
    {
      match place {
        case OuterTest =>
          if runWorkerThread {
            place := Locking;
          } else {
            workerOwnsLock := false;
            place := Exited;
          }
        case Locking =>
          LockMutex();
          place := WaitTest;
        case WaitTest =>
          if taskPushed {
            taskPushed := false;
            place := InnerTest;
          } else {
            UnlockMutex();
            place := Blocked(false);
          }
        case Blocked(woken) =>
          if woken {
            LockMutex();
            place := WaitTest;
          }
        case InnerTest =>
          if !runWorkerThread {
            place := OuterTest;
          } else if |taskQueue| > 0 {
            var task := taskQueue[0];
            taskQueue := taskQueue[1..];
            UnlockMutex();
            place := Processing(task);
          } else {
            UnlockMutex();
            place := OuterTest;
          }
        case Processing(task) =>
          processed := processed + [task];
          place := Relocking;
        case Relocking =>
          LockMutex();
          place := InnerTest;
        case Exited =>
      }
    }

    /** A whole schedule of callers and worker; a caller that finds the mutex taken waits. */
    method Execute(schedule: seq<Action<T>>)
      modifies this
      ensures View() == Run(old(View()), schedule)
      ensures old(View()) == Initial() ==> Invariant(View())
    {
      ghost var start := View();
      var i := 0;
      while i < |schedule|
        invariant 0 <= i <= |schedule|
        invariant Run(View(), schedule[i..]) == Run(start, schedule)
      {
        var a := schedule[i];
        match a {
          case Push(task) =>
            if !workerOwnsLock {
              var size := PushToQueue(task);
            }
          case Stop =>
            if !workerOwnsLock {
              StopQueue();
            }
          case Notify =>
            if owed > 0 {
              NotifyAll();
            }
          case WakeUp =>
            if place.Blocked? {
              place := Blocked(true);
            }
          case Work =>
            Worker();
        }
        assert schedule[i..][1..] == schedule[i + 1..];
        i := i + 1;
      }
      if start == Initial() {
        RunKeepsInvariant(start, schedule);
      }
    }
  }
}
