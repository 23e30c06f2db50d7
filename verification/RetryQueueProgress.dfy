/** The retrying queue gets on: a worker that nobody stopped keeps trying the head of the queue, the
    same task after a failure and the next one after a success. */
module RetryQueueProgress {
  import opened RetryQueue

  predicate StopFree<T>(actions: seq<Action<T>>) {
    forall i :: 0 <= i < |actions| ==> !actions[i].Stop?
  }

  /** A worker ends only after a stop. */
  predicate Alive<T>(s: State<T>) {
    s.place.Exited? ==> !s.runWorkerThread
  }

  lemma {:induction false} AliveOn<T>(s: State<T>, actions: seq<Action<T>>)
    requires Alive(s)
    ensures Alive(Run(s, actions))
    decreases |actions|
  {
    if actions != [] {
      AliveOn(Step(s, actions[0]), actions[1..]);
    }
  }

  /** In every run a worker that has ended was stopped. */
  lemma EndedWasStopped<T>(actions: seq<Action<T>>)
    ensures var s := Run(Initial<T>(), actions); s.place.Exited? ==> !s.runWorkerThread
  {
    AliveOn(Initial<T>(), actions);
  }

  /** Steps the worker needs to begin an attempt. */
  function StepsToAttempt<T>(s: State<T>): nat {
    match s.place
    case Sleeping => 1
    case Locking => 2
    case OuterTest => 3
    case Processing(_) => 4
    case Exited => 0
  }

  /** A running worker between two attempts, with something to try. */
  predicate Waiting<T>(s: State<T>) {
    s.runWorkerThread && s.tasks != [] && !s.place.Processing? && !s.place.Exited?
  }

  lemma AttemptsGrow<T>(s: State<T>, a: Action<T>)
    ensures s.attempts <= Step(s, a).attempts
  {
  }

  lemma {:induction false} AttemptsGrowOn<T>(s: State<T>, actions: seq<Action<T>>)
    ensures s.attempts <= Run(s, actions).attempts
    decreases |actions|
  {
    if actions != [] {
      AttemptsGrow(s, actions[0]);
      AttemptsGrowOn(Step(s, actions[0]), actions[1..]);
    }
  }

  lemma WaitingStep<T>(s: State<T>, a: Action<T>)
    requires Waiting(s) && !a.Stop? && !a.Pop?
    ensures var s' := Step(s, a);
            || s'.attempts == s.attempts + [s.tasks[0]]
            || (&& Waiting(s') && s'.attempts == s.attempts && s'.tasks[0] == s.tasks[0]
                && StepsToAttempt(s') + (if a.Work? then 1 else 0) <= StepsToAttempt(s))
  {
  }

  /** In any interleaving without a stop and a pop the next attempt is on the head of the queue,
      and it has begun by the time the worker took the steps it needs, at most three. */
  lemma {:induction false} HeadIsTried<T>(s: State<T>, actions: seq<Action<T>>)
    requires Waiting(s) && StopFree(actions) && PopFree(actions) && WorkerMoves(s, actions) >= StepsToAttempt(s)
    ensures s.attempts + [s.tasks[0]] <= Run(s, actions).attempts
    decreases |actions|
  {
    if actions != [] {
      var s' := Step(s, actions[0]);
      WaitingStep(s, actions[0]);
      if s'.attempts == s.attempts + [s.tasks[0]] {
        AttemptsGrowOn(s', actions[1..]);
      } else {
        assert forall i :: 0 <= i < |actions[1..]| ==> actions[1..][i] == actions[i + 1];
        HeadIsTried(s', actions[1..]);
      }
    }
  }

  /** A run without a pop so far: an attempt is on the head of the queue. */
  lemma AttemptIsOnHead<T>(before: seq<Action<T>>)
    requires PopFree(before) && Run(Initial<T>(), before).place.Processing?
    ensures var s := Run(Initial<T>(), before); s.tasks != [] && s.place.task == s.tasks[0]
  {
    PopFreeRun(Initial<T>(), before);
    var s := Run(Initial<T>(), before);
    assert s.pushed[|s.removed|] == s.tasks[0];
  }

  /** Main: in every run without a pop and a stop, when an attempt ends, then, however it goes on
      without them, by the time the worker took three more steps it has begun the next attempt: on
      the same task if the attempt failed, on the next one in the queue if it succeeded and there
      is one. */
  lemma NextAttempt<T>(before: seq<Action<T>>, processed: bool, after: seq<Action<T>>)
    requires PopFree(before) && PopFree(after) && StopFree(after)
    requires var s := Run(Initial<T>(), before); s.runWorkerThread && s.place.Processing?
    requires WorkerMoves(Step(Run(Initial<T>(), before), Work(processed)), after) >= 3
    ensures var s := Run(Initial<T>(), before);
            var attempts := Run(Step(s, Work(processed)), after).attempts;
            && (!processed ==> s.attempts + [s.place.task] <= attempts)
            && (processed && |s.tasks| > 1 ==> s.attempts + [s.tasks[1]] <= attempts)
  {
    AttemptIsOnHead(before);
    var s := Run(Initial<T>(), before);
    var ended := Step(s, Work(processed));
    if ended.tasks != [] {
      HeadIsTried(ended, after);
    }
  }

  /** And in every run a worker that nobody stopped begins an attempt on the head of the queue by
      the time it took three steps, when it is not at an attempt and a task is there. */
  lemma QueuedTaskIsTried<T>(before: seq<Action<T>>, after: seq<Action<T>>)
    requires PopFree(after) && StopFree(after)
    requires var s := Run(Initial<T>(), before); s.runWorkerThread && s.tasks != [] && !s.place.Processing?
    requires WorkerMoves(Run(Initial<T>(), before), after) >= 3
    ensures var s := Run(Initial<T>(), before); s.attempts + [s.tasks[0]] <= Run(s, after).attempts
  {
    AliveOn(Initial<T>(), before);
    HeadIsTried(Run(Initial<T>(), before), after);
  }

  /** The first task pushed to a new queue is tried. */
  lemma FirstTaskIsTried<T>(task: T, after: seq<Action<T>>)
    requires PopFree(after) && StopFree(after)
    requires WorkerMoves(Run(Initial<T>(), [Push(task)]), after) >= 3
    ensures [task] <= Run(Run(Initial<T>(), [Push(task)]), after).attempts
  {
    var s := Step(Initial<T>(), Push(task));
    assert Run(s, []) == s;
    assert Run(Initial<T>(), [Push(task)]) == s;
    QueuedTaskIsTried([Push(task)], after);
  }

  /** A stop takes effect at once: at most one attempt begins, and in any interleaving the worker
      ends within four steps of its own; the destructor then clears the function. */
  lemma StopEndsWorker<T>(before: seq<Action<T>>, after: seq<Action<T>>)
    ensures var s := Run(Initial<T>(), before);
            var t := Run(Step(s, Stop), after);
            && |t.attempts| <= |s.attempts| + 1
            && (WorkerMoves(Step(s, Stop), after) >= 4 ==> t.place.Exited? && !Step(t, Clear).hasFunction)
  {
    var s := Run(Initial<T>(), before);
    StopAllowsOneAttempt(Step(s, Stop), after);
    StoppedWorkerExits(Step(s, Stop), after);
  }
}
