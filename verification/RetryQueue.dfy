/** The retrying task queue: the worker takes a look at the head, processes it without the
    mutex, and removes the head only when processing succeeded. A run is any interleaving of
    pushers, a stopper, external removals and the worker. */
module RetryQueue {

  /** `Sleeping` is inside the timed wait, which ends by itself at any moment. */
  datatype Place<T> = OuterTest | Locking | Sleeping | Processing(task: T) | Exited

  datatype State<T> = State(
    tasks: seq<T>,
    runWorkerThread: bool,
    hasFunction: bool,     // the processing function has not been cleared
    place: Place<T>,
    removedEmpty: bool,    // the worker removed the head of an empty queue
    pushed: seq<T>,        // history: every task pushed
    removed: seq<T>,       // history: every task removed, by the worker or from outside
    startedAt: nat,        // history: removals there had been when the latest attempt began
    attempts: seq<T>,      // history: the task of every attempt begun
    results: seq<bool>)    // history: the result of every attempt ended

  datatype Action<T> =
    | Push(task: T)
    | Pop                     // an external pop
    | Stop                    // stopQueue up to its join
    | Clear                   // the destructor after the join
    | Work(processed: bool)   // the worker's next step; `processed` is what processing returns

  function Initial<T>(): State<T> {
    State([], true, true, OuterTest, false, [], [], 0, [], [])
  }

  function RemoveHead<T>(s: State<T>): State<T>
    requires s.tasks != []
  {
    s.(tasks := s.tasks[1..], removed := s.removed + [s.tasks[0]])
  }

  function WorkerStep<T>(s: State<T>, processed: bool): State<T> {
    match s.place
    case OuterTest => s.(place := if s.runWorkerThread then Locking else Exited)
    case Locking => s.(place := Sleeping)
    case Sleeping =>
      if s.tasks == [] then s.(place := OuterTest)
      else s.(place := Processing(s.tasks[0]), startedAt := |s.removed|, attempts := s.attempts + [s.tasks[0]])
    case Processing(_) =>
      var ended := s.(place := OuterTest, results := s.results + [processed]);
      if !processed then ended
      else if s.tasks == [] then ended.(removedEmpty := true)
      else RemoveHead(ended)
    case Exited => s
  }

  /** An action that is not possible leaves the state as it is: a pop needs a task, and the
      destructor's join waits for the worker's end. */
  function Step<T>(s: State<T>, a: Action<T>): State<T> {
    match a
    case Push(task) => s.(tasks := s.tasks + [task], pushed := s.pushed + [task])
    case Pop => if s.tasks == [] then s else RemoveHead(s)
    case Stop => s.(runWorkerThread := false)
    case Clear => if !s.runWorkerThread && s.place.Exited? then s.(hasFunction := false) else s
    case Work(processed) => WorkerStep(s, processed)
  }

  function Run<T>(s: State<T>, actions: seq<Action<T>>): State<T>
    decreases |actions|
  {
    if actions == [] then s else Run(Step(s, actions[0]), actions[1..])
  }

  function Successes(results: seq<bool>): (n: nat)
    ensures n <= |results|
  {
    if results == [] then 0
    else Successes(results[..|results| - 1]) + if results[|results| - 1] then 1 else 0
  }

  predicate PopFree<T>(actions: seq<Action<T>>) {
    forall i :: 0 <= i < |actions| ==> !actions[i].Pop?
  }

  // ---- Every run, external removals included ----

  /** The queue is what was pushed less what was removed at the head, an attempt under way is
      on the task that was the head when it began, and a cleared function means no worker. */
  ghost predicate Invariant<T>(s: State<T>) {
    && s.pushed == s.removed + s.tasks
    && |s.attempts| == |s.results| + (if s.place.Processing? then 1 else 0)
    && (s.place.Processing? ==>
          && s.startedAt <= |s.removed| && s.startedAt < |s.pushed|
          && s.place.task == s.pushed[s.startedAt] == s.attempts[|s.attempts| - 1])
    && (!s.hasFunction ==> s.place.Exited?)
  }

  lemma RemovalConserves<T>(s: State<T>)
    requires s.tasks != [] && s.pushed == s.removed + s.tasks
    ensures s.pushed == RemoveHead(s).removed + RemoveHead(s).tasks
  {
    assert s.tasks == [s.tasks[0]] + s.tasks[1..];
  }

  lemma WorkKeepsInvariant<T>(s: State<T>, processed: bool)
    requires Invariant(s)
    ensures Invariant(WorkerStep(s, processed))
  {
    if s.place.Sleeping? && s.tasks != [] {
      assert s.pushed[|s.removed|] == s.tasks[0];
    } else if s.place.Processing? && s.tasks != [] {
      RemovalConserves(s);
    }
  }

  lemma StepKeepsInvariant<T>(s: State<T>, a: Action<T>)
    requires Invariant(s)
    ensures Invariant(Step(s, a))
  {
    match a
    case Push(task) =>
      assert s.pushed + [task] == s.removed + (s.tasks + [task]);
    case Pop =>
      if s.tasks != [] {
        RemovalConserves(s);
      }
    case Stop =>
    case Clear =>
    case Work(processed) =>
      WorkKeepsInvariant(s, processed);
  }

  lemma {:induction false} RunKeepsInvariant<T>(s: State<T>, actions: seq<Action<T>>)
    requires Invariant(s)
    ensures Invariant(Run(s, actions))
    decreases |actions|
  {
    if actions != [] {
      StepKeepsInvariant(s, actions[0]);
      RunKeepsInvariant(Step(s, actions[0]), actions[1..]);
    }
  }

  // ---- Runs without an external removal ----

  /** Attempt `i` is on the pushed task whose index is the number of earlier successes. */
  ghost predicate InOrder<T>(pushed: seq<T>, attempts: seq<T>, results: seq<bool>) {
    && |results| <= |attempts| <= |results| + 1
    && forall i :: 0 <= i < |attempts| ==>
         Successes(results[..i]) < |pushed| && attempts[i] == pushed[Successes(results[..i])]
  }

  ghost predicate RetriesInOrder<T>(s: State<T>) {
    InOrder(s.pushed, s.attempts, s.results)
  }

  lemma OrderAfterResult<T>(pushed: seq<T>, attempts: seq<T>, results: seq<bool>, r: bool)
    requires InOrder(pushed, attempts, results) && |attempts| == |results| + 1
    ensures InOrder(pushed, attempts, results + [r])
    ensures Successes(results + [r]) == Successes(results) + if r then 1 else 0
  {
    assert (results + [r])[..|results|] == results;
    assert forall i :: 0 <= i <= |results| ==> (results + [r])[..i] == results[..i];
  }

  lemma OrderAfterAttempt<T>(pushed: seq<T>, attempts: seq<T>, results: seq<bool>)
    requires InOrder(pushed, attempts, results) && |attempts| == |results|
    requires Successes(results) < |pushed|
    ensures InOrder(pushed, attempts + [pushed[Successes(results)]], results)
  {
    assert results[..|results|] == results;
  }

  ghost predicate PopFreeInvariant<T>(s: State<T>) {
    && Invariant(s)
    && !s.removedEmpty
    && |s.removed| == Successes(s.results)
    && (s.place.Processing? ==> s.startedAt == |s.removed| && s.tasks != [])
    && RetriesInOrder(s)
  }

  lemma PopFreeWork<T>(s: State<T>, processed: bool)
    requires PopFreeInvariant(s)
    ensures PopFreeInvariant(WorkerStep(s, processed))
  {
    WorkKeepsInvariant(s, processed);
    if s.place.Sleeping? && s.tasks != [] {
      assert s.pushed[|s.removed|] == s.tasks[0];
      OrderAfterAttempt(s.pushed, s.attempts, s.results);
    } else if s.place.Processing? {
      OrderAfterResult(s.pushed, s.attempts, s.results, processed);
    }
  }

  lemma PopFreeStep<T>(s: State<T>, a: Action<T>)
    requires PopFreeInvariant(s) && !a.Pop?
    ensures PopFreeInvariant(Step(s, a))
  {
    StepKeepsInvariant(s, a);
    if a.Work? {
      PopFreeWork(s, a.processed);
    }
  }

  lemma {:induction false} PopFreeRun<T>(s: State<T>, actions: seq<Action<T>>)
    requires PopFreeInvariant(s) && PopFree(actions)
    ensures PopFreeInvariant(Run(s, actions))
    decreases |actions|
  {
    if actions != [] {
      PopFreeStep(s, actions[0]);
      PopFreeRun(Step(s, actions[0]), actions[1..]);
    }
  }

  /** Without an external removal, in any interleaving: the i-th attempt is on the task indexed
      by the number of earlier successes, so a failing task is tried again before any later one,
      the tasks that succeeded are the first ones pushed, and the queue holds all the others. */
  lemma FailingTasksAreRetried<T>(actions: seq<Action<T>>)
    requires PopFree(actions)
    ensures var s := Run(Initial<T>(), actions);
            && RetriesInOrder(s)
            && Successes(s.results) <= |s.pushed|
            && s.tasks == s.pushed[Successes(s.results)..]
            && s.removed == s.pushed[..Successes(s.results)]
            && !s.removedEmpty
  {
    PopFreeRun(Initial<T>(), actions);
  }

  // ---- What an external removal does to the attempt under way ----

  /** Nothing but the worker's own step between the start of an attempt and its end. */
  predicate WindowOf<T>(window: seq<Action<T>>) {
    forall i :: 0 <= i < |window| ==> !window[i].Work?
  }

  lemma {:induction false} WindowKeepsAttempt<T>(s: State<T>, window: seq<Action<T>>)
    requires Invariant(s) && s.place.Processing? && WindowOf(window)
    ensures var s' := Run(s, window);
            && Invariant(s')
            && s'.place == s.place && s'.startedAt == s.startedAt && |s'.removed| >= |s.removed|
            && (s.tasks != [] && !PopFree(window) ==> |s'.removed| > |s.removed|)
            && (PopFree(window) ==> s'.removed == s.removed)
    decreases |window|
  {
    if window != [] {
      StepKeepsInvariant(s, window[0]);
      WindowKeepsAttempt(Step(s, window[0]), window[1..]);
      assert PopFree(window) <==> !window[0].Pop? && PopFree(window[1..]);
    }
  }

  /** A successful attempt removes the very task it processed if and only if nobody popped
      while it was being processed. */
  lemma SuccessRemovesOwnTask<T>(before: seq<Action<T>>, window: seq<Action<T>>)
    requires var s := Run(Initial<T>(), before); s.place.Sleeping? && s.tasks != []
    requires WindowOf(window)
    ensures var s := Step(Run(Initial<T>(), before), Work(true));
            var w := Run(s, window);
            && w.place.Processing? && w.startedAt < |w.pushed| && w.place.task == w.pushed[w.startedAt]
            && (PopFree(window) <==> |w.removed| == w.startedAt)
            && (PopFree(window) ==> Step(w, Work(true)).removed == w.removed + [w.place.task])
  {
    var s0 := Run(Initial<T>(), before);
    RunKeepsInvariant(Initial<T>(), before);
    var s := Step(s0, Work(true));
    StepKeepsInvariant(s0, Work(true));
    WindowKeepsAttempt(s, window);
  }

  /** With a pop in that window a task can leave the queue that was never tried. */
  lemma PopInWindowLosesTask<T>(a: T, b: T) returns (actions: seq<Action<T>>)
    requires a != b
    ensures var s := Run(Initial<T>(), actions);
            s.pushed == [a, b] && s.tasks == [] && b !in s.attempts && s.results == [true]
  {
    actions := [Push(a), Push(b), Work(true), Work(true), Work(true), Pop, Work(true)];
    var s2 := Step(Step(Initial<T>(), Push(a)), Push(b));
    var s5 := Step(Step(Step(s2, Work(true)), Work(true)), Work(true));
    var s7 := Step(Step(s5, Pop), Work(true));
    assert s5.place == Processing(a) && s5.tasks == [a, b];
    assert actions[1..] == [Push(b), Work(true), Work(true), Work(true), Pop, Work(true)];
    assert actions[1..][1..] == [Work(true), Work(true), Work(true), Pop, Work(true)];
    assert Run(s2, [Work(true), Work(true), Work(true), Pop, Work(true)])
        == Run(Step(s2, Work(true)), [Work(true), Work(true), Pop, Work(true)]);
    assert Run(Step(Step(s2, Work(true)), Work(true)), [Work(true), Pop, Work(true)])
        == Run(s5, [Pop, Work(true)]);
    assert Run(Step(s5, Pop), [Work(true)]) == s7;
  }

  // ---- After a stop ----

  /** Attempts that can still begin once the run flag is down. */
  function AttemptsLeft<T>(s: State<T>): nat {
    if s.place.Locking? || s.place.Sleeping? then 1 else 0
  }

  /** At most one attempt begins after a stop, and none when the worker is past its sleep. */
  lemma {:induction false} StopAllowsOneAttempt<T>(s: State<T>, actions: seq<Action<T>>)
    requires !s.runWorkerThread
    ensures var s' := Run(s, actions);
            !s'.runWorkerThread && |s'.attempts| + AttemptsLeft(s') <= |s.attempts| + AttemptsLeft(s)
    decreases |actions|
  {
    if actions != [] {
      StopAllowsOneAttempt(Step(s, actions[0]), actions[1..]);
    }
  }

  /** No attempt begins once the destructor has cleared the processing function. */
  lemma ClearedFunctionIsNeverCalled<T>(before: seq<Action<T>>, after: seq<Action<T>>)
    requires !Run(Initial<T>(), before).hasFunction
    ensures var s := Run(Initial<T>(), before);
            Run(s, after).attempts == s.attempts && Run(s, after).place.Exited?
  {
    RunKeepsInvariant(Initial<T>(), before);
    ExitedStaysExited(Run(Initial<T>(), before), after);
  }

  lemma {:induction false} ExitedStaysExited<T>(s: State<T>, actions: seq<Action<T>>)
    requires s.place.Exited?
    ensures Run(s, actions).place.Exited? && Run(s, actions).attempts == s.attempts
    decreases |actions|
  {
    if actions != [] {
      ExitedStaysExited(Step(s, actions[0]), actions[1..]);
    }
  }

  /** Steps the worker still needs to reach its end after a stop. */
  function StepsLeft<T>(s: State<T>): nat {
    match s.place
    case Exited => 0
    case OuterTest => 1
    case Processing(_) => 2
    case Sleeping => 3
    case Locking => 4
  }

  /** Steps that the worker takes in a run. */
  function WorkerMoves<T>(s: State<T>, actions: seq<Action<T>>): nat
    decreases |actions|
  {
    if actions == [] then 0
    else (if actions[0].Work? && !s.place.Exited? then 1 else 0) + WorkerMoves(Step(s, actions[0]), actions[1..])
  }

  lemma StoppedStepDescends<T>(s: State<T>, a: Action<T>)
    requires !s.runWorkerThread
    ensures !Step(s, a).runWorkerThread
    ensures StepsLeft(Step(s, a)) + (if a.Work? && !s.place.Exited? then 1 else 0) <= StepsLeft(s)
  {
  }

  /** The join of a stop can end: in any interleaving the worker takes at most four more steps,
      none of which waits for anyone, and with the last one it has ended. */
  lemma {:induction false} StoppedWorkerExits<T>(s: State<T>, actions: seq<Action<T>>)
    requires !s.runWorkerThread
    ensures WorkerMoves(s, actions) + StepsLeft(Run(s, actions)) <= StepsLeft(s) <= 4
    ensures WorkerMoves(s, actions) >= 4 ==> Run(s, actions).place.Exited?
    decreases |actions|
  {
    if actions != [] {
      StoppedStepDescends(s, actions[0]);
      StoppedWorkerExits(Step(s, actions[0]), actions[1..]);
    }
  }

  // ---- The queue object ----

  class Queue<T> {
    var taskQueue: seq<T>
    var runWorkerThread: bool
    var hasFunction: bool
    var place: Place<T>
    var removedEmpty: bool
    ghost var pushed: seq<T>
    ghost var removed: seq<T>
    ghost var startedAt: nat
    ghost var attempts: seq<T>
    ghost var results: seq<bool>

    ghost function View(): State<T> reads this {
      State(taskQueue, runWorkerThread, hasFunction, place, removedEmpty, pushed, removed, startedAt, attempts, results)
    }

    constructor ()
      ensures View() == Initial()
    {
      taskQueue := [];
      runWorkerThread, hasFunction := true, true;
      place := OuterTest;
      removedEmpty := false;
      pushed, removed, startedAt, attempts, results := [], [], 0, [], [];
    }

    method PushToQueue(task: T) returns (size: nat)
      modifies this
      ensures View() == Step(old(View()), Push(task))
      ensures taskQueue == old(taskQueue) + [task] && pushed == old(pushed) + [task]
      ensures size == |taskQueue|
    {
      taskQueue := taskQueue + [task];
      pushed := pushed + [task];
      size := |taskQueue|;
    }

    /** Reading the front of an empty queue is undefined in the source. */
    method PopTask() returns (task: T)
      requires taskQueue != []
      modifies this
      ensures View() == Step(old(View()), Pop)
      ensures old(taskQueue) == [task] + taskQueue
    {
      task := taskQueue[0];
      taskQueue := taskQueue[1..];
      removed := removed + [task];
    }

    method StopQueue()
      modifies this
      ensures View() == Step(old(View()), Stop)
    {
      runWorkerThread := false;
    }

    method ClearFunction()
      requires !runWorkerThread && place.Exited?
      modifies this
      ensures View() == Step(old(View()), Clear)
    {
      hasFunction := false;
    }

    /** The worker function, from one of its places to the next. */
    method Worker(processed: bool)
      modifies this
      ensures View() == Step(old(View()), Work(processed))
    {
      match place {
        case OuterTest =>
          if runWorkerThread {
            place := Locking;
          } else {
            place := Exited;
          }
        case Locking =>
          place := Sleeping;
        case Sleeping =>
          if |taskQueue| > 0 {
            var task := taskQueue[0];
            startedAt := |removed|;
            attempts := attempts + [task];
            place := Processing(task);
          } else {
            place := OuterTest;
          }
        case Processing(task) =>
          results := results + [processed];
          if processed {
            if |taskQueue| > 0 {
              removed := removed + [taskQueue[0]];
              taskQueue := taskQueue[1..];
            } else {
              removedEmpty := true;
            }
          }
          place := OuterTest;
        case Exited =>
      }
    }

    method Perform(a: Action<T>)
      modifies this
      ensures View() == Step(old(View()), a)
    {
      match a {
        case Push(task) =>
          var size := PushToQueue(task);
        case Pop =>
          if taskQueue != [] {
            var task := PopTask();
          }
        case Stop => StopQueue();
        case Clear =>
          if !runWorkerThread && place.Exited? {
            ClearFunction();
          }
        case Work(processed) => Worker(processed);
      }
    }

    /** A whole schedule of callers and worker, from the construction on: the tasks that
        succeeded are the first ones pushed and failing ones are retried in place, as long as
        nobody pops. */
    method Execute(schedule: seq<Action<T>>)
      modifies this
      ensures View() == Run(old(View()), schedule)
      ensures old(View()) == Initial() ==> Invariant(View())
      ensures old(View()) == Initial() && PopFree(schedule) ==>
                RetriesInOrder(View()) && Successes(results) <= |pushed| && taskQueue == pushed[Successes(results)..]
    {
      ghost var start := View();
      var i := 0;
      while i < |schedule|
        invariant 0 <= i <= |schedule|
        invariant Run(View(), schedule[i..]) == Run(start, schedule)
      {
        Perform(schedule[i]);
        assert schedule[i..][1..] == schedule[i + 1..];
        i := i + 1;
      }
      if start == Initial() {
        RunKeepsInvariant(start, schedule);
        if PopFree(schedule) {
          FailingTasksAreRetried(schedule);
        }
      }
    }
  }
}
