/** The task queue gets on: as long as nobody stops it, the worker starts the head of the queue
    within a few steps of its own, and ends with every pushed task processed. */
module TaskQueueProgress {
  import opened TaskQueue

  predicate StopFree<T>(actions: seq<Action<T>>) {
    forall i :: 0 <= i < |actions| ==> !actions[i].Stop?
  }

  /** Steps the worker needs to start the head of the queue. */
  function StepsToStart<T>(s: State<T>): nat {
    match s.place
    case InnerTest => 1
    case WaitTest => 2
    case Relocking => 2
    case Locking => 3
    case Blocked(_) => 3
    case Processing(_) => 3
    case OuterTest => 4
    case Exited => 0
  }

  /** A running worker with something to do. */
  ghost predicate Busy<T>(s: State<T>) {
    Invariant(s) && s.runWorkerThread && s.tasks != [] && s.place != Exited
  }

  /** Everything started stays started. */
  lemma StartedGrows<T>(s: State<T>, a: Action<T>)
    ensures Started(s) <= Started(Step(s, a))
  {
  }

  lemma {:induction false} StartedGrowsOn<T>(s: State<T>, actions: seq<Action<T>>)
    ensures Started(s) <= Started(Run(s, actions))
    decreases |actions|
  {
    if actions != [] {
      StartedGrows(s, actions[0]);
      StartedGrowsOn(Step(s, actions[0]), actions[1..]);
    }
  }

  /** Any step but a stop starts the head, or keeps it and gets nearer if it is the worker's. */
  lemma BusyStep<T>(s: State<T>, a: Action<T>)
    requires Busy(s) && !a.Stop?
    ensures var s' := Step(s, a);
            || Started(s') == Started(s) + [s.tasks[0]]
            || (&& Busy(s') && Started(s') == Started(s) && s'.tasks[0] == s.tasks[0]
                && StepsToStart(s') + (if a.Work? && WorkerCanMove(s) then 1 else 0) <= StepsToStart(s))
  {
    StepKeepsInvariant(s, a);
  }

  /** In any interleaving without a stop: once the worker took as many steps as it needs, at most
      four, the head of the queue is the next task started. */
  lemma {:induction false} HeadIsStarted<T>(s: State<T>, actions: seq<Action<T>>)
    requires Busy(s) && StopFree(actions) && WorkerMoves(s, actions) >= StepsToStart(s)
    ensures Started(s) + [s.tasks[0]] <= Started(Run(s, actions))
    decreases |actions|
  {
    if actions != [] {
      var s' := Step(s, actions[0]);
      BusyStep(s, actions[0]);
      if Started(s') == Started(s) + [s.tasks[0]] {
        StartedGrowsOn(s', actions[1..]);
      } else {
        assert forall i :: 0 <= i < |actions[1..]| ==> actions[1..][i] == actions[i + 1];
        HeadIsStarted(s', actions[1..]);
      }
    }
  }

  /** A worker that has not been stopped has not ended. */
  ghost predicate Alive<T>(s: State<T>) {
    Invariant(s) && (s.place.Exited? ==> !s.runWorkerThread)
  }

  lemma {:induction false} AliveOn<T>(s: State<T>, actions: seq<Action<T>>)
    requires Alive(s)
    ensures Alive(Run(s, actions))
    decreases |actions|
  {
    if actions != [] {
      StepKeepsInvariant(s, actions[0]);
      AliveOn(Step(s, actions[0]), actions[1..]);
    }
  }

  /** Main: in every run, when a task is queued and nobody has stopped the queue, then, however it
      goes on without a stop, the head is started next, by the time the worker took four steps of
      its own; and the worker can take a step, or sleeps with a notification on its way. */
  lemma QueuedTaskIsStarted<T>(before: seq<Action<T>>, after: seq<Action<T>>)
    requires var s := Run(Initial<T>(), before); s.runWorkerThread && s.tasks != []
    requires StopFree(after)
    ensures var s := Run(Initial<T>(), before);
            && (WorkerMoves(s, after) >= 4 ==> Started(s) + [s.tasks[0]] <= Started(Run(s, after)))
            && (WorkerCanMove(s) || (s.owed > 0 && WorkerCanMove(Step(s, Notify))))
  {
    var s := Run(Initial<T>(), before);
    AliveOn(Initial<T>(), before);
    if WorkerMoves(s, after) >= 4 {
      HeadIsStarted(s, after);
    }
  }

  // ---- The worker on its own ----

  /** Nobody but the worker and the callers that still owe a notification. */
  predicate Undisturbed<T>(actions: seq<Action<T>>) {
    forall i :: 0 <= i < |actions| ==> actions[i].Work? || actions[i].Notify?
  }

  lemma {:induction false} RunAppend<T>(s: State<T>, a: seq<Action<T>>, b: seq<Action<T>>)
    ensures Run(s, a + b) == Run(Run(s, a), b)
    decreases |a|
  {
    if a == [] {
      assert a + b == b;
    } else {
      assert (a + b)[0] == a[0] && (a + b)[1..] == a[1..] + b;
      RunAppend(Step(s, a[0]), a[1..], b);
    }
  }

  /** Left alone, the worker starts the head of the queue and nothing else. */
  lemma {:induction false} StartsHead<T>(s: State<T>) returns (actions: seq<Action<T>>)
    requires Busy(s)
    ensures Undisturbed(actions)
    ensures var s' := Run(s, actions);
            && Invariant(s') && s'.runWorkerThread && s'.pushed == s.pushed
            && Started(s') == Started(s) + [s.tasks[0]] && s'.tasks == s.tasks[1..]
            && s'.place == Processing(s.tasks[0])
    decreases StepsToStart(s), if s.place == Blocked(false) then 1 else 0
  {
    var a := if s.place == Blocked(false) then Notify else Work;
    StepKeepsInvariant(s, a);
    BusyStep(s, a);
    var s' := Step(s, a);
    if s.place.InnerTest? {
      actions := [a];
      assert Run(s', []) == s';
    } else {
      var rest := StartsHead(s');
      actions := [a] + rest;
      assert actions[1..] == rest;
    }
  }

  /** Left alone, the worker ends with every pushed task processed, in order. */
  lemma {:induction false} DrainsAlone<T>(s: State<T>) returns (actions: seq<Action<T>>)
    requires Invariant(s) && s.runWorkerThread && !s.place.Exited?
    ensures Undisturbed(actions)
    ensures Run(s, actions).processed == s.pushed && Run(s, actions).tasks == []
    decreases |s.tasks|
  {
    if s.tasks != [] {
      var first := StartsHead(s);
      var rest := DrainsAlone(Run(s, first));
      RunAppend(s, first, rest);
      actions := first + rest;
    } else if s.place.Processing? {
      actions := [Work];
      assert Run(Step(s, Work), []) == Step(s, Work);
    } else {
      actions := [];
    }
  }

  /** Main: from every reachable state without a stop the worker alone processes all that was
      pushed. */
  lemma EverythingIsProcessed<T>(before: seq<Action<T>>) returns (after: seq<Action<T>>)
    requires Run(Initial<T>(), before).runWorkerThread
    ensures Undisturbed(after)
    ensures var s := Run(Initial<T>(), before); Run(s, after).processed == s.pushed
  {
    AliveOn(Initial<T>(), before);
    after := DrainsAlone(Run(Initial<T>(), before));
  }

  /** The very first task pushed to a new queue is processed. */
  lemma FirstTaskIsProcessed<T>(task: T) returns (after: seq<Action<T>>)
    ensures Undisturbed(after)
    ensures Run(Run(Initial<T>(), [Push(task)]), after).processed == [task]
  {
    var s := Step(Initial<T>(), Push(task));
    assert Run(s, []) == s;
    assert Run(Initial<T>(), [Push(task)]) == s;
    after := EverythingIsProcessed([Push(task)]);
  }

  /** A stop takes effect as soon as it has the mutex: nothing is started any more, and in any
      interleaving the worker ends within four steps of its own. */
  lemma StopEndsWorker<T>(before: seq<Action<T>>, after: seq<Action<T>>)
    requires !Run(Initial<T>(), before).workerOwnsLock
    ensures var s := Run(Initial<T>(), before);
            var t := Run(Step(s, Stop), after);
            && Started(t) == Started(s)
            && (WorkerMoves(Step(s, Stop), after) >= 4 ==> t.place.Exited?)
  {
    var s := Run(Initial<T>(), before);
    RunKeepsInvariant(Initial<T>(), before);
    StepKeepsInvariant(s, Stop);
    StopStartsNothing(Step(s, Stop), after);
    StoppedWorkerDescends(Step(s, Stop), after);
  }
}
