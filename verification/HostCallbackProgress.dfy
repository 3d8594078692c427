/**
  Progress of the callback-mode scheduler: no reachable state is stuck, and without new tasks every run is
  finite, so every task reaches COMPLETED.
 */
module HostCallbackProgress {
  import opened Wrappers
  import opened Bags
  import opened TaskStates
  import opened HostCallback
  import opened HostCallbackInvariant
  import opened HostCallbackSteps
  import opened HostCallbackDispatch
  import opened HostCallbackSafety

  // ---------------------------------------------------------------- something can always happen

  /** In a reachable state an existing task can always be tried. */
  lemma AlwaysLaunchable(s: State, t: nat)
    requires Shape(s) && SignalValues(s) && t < |s.tasks|
    ensures Launchable(s, t)
  {
    assert TaskShape(s, t);
  }

  /** The callback thread is never stuck inside a handler. */
  lemma HandlerMoves(s: State) returns (e: Event)
    requires Basic(s) && SignalValues(s) && Waiting(s, None) && s.handler != Idle
    ensures Enabled(s, e) && !e.Create?
  {
    match s.handler
    case Notifying(h, woken) =>
      assert TaskShape(s, h);
      e := if s.tasks[h].notified < |s.tasks[h].succs| then NotifyOne else Release;
    case Finishing(h) => e := Complete;
    case Snapshotting => e := Snapshot;
    case Draining(todo, hand) =>
      if hand.Some? {
        assert WaitBag(s)[hand.value] >= 1;
        assert Waits(s, hand.value);
        AlwaysLaunchable(s, hand.value);
        e := Retry;
      } else {
        e := if todo == 0 then Quit else Pop;
      }
  }

  lemma PublishMoves(s: State, t: nat) returns (e: Event)
    requires Basic(s) && Segments(s) && t < |s.tasks| && s.tasks[t].status == Ready
    ensures Enabled(s, e) && e.Publish? && e.task == t
  {
    assert TaskShape(s, t) && TaskPhase(s.tasks[t]);
    if s.tasks[t].kernel.None? {
      e := Publish(t, []);
    } else {
      var k := s.kernels[s.tasks[t].kernel.value];
      assert Pooled(k);
      HeldSegmentIsNotFree(s, t);
      e := Publish(t, seq(k.segmentSize - k.copySize, _ => 0));
    }
  }

  /** A task that is neither waiting nor completed can move by itself. */
  lemma TaskMoves(s: State, t: nat) returns (e: Event)
    requires Basic(s) && SignalValues(s) && Segments(s) && s.handler == Idle && t < |s.tasks|
    requires s.tasks[t].status != Initialized && s.tasks[t].status != Completed
    ensures Enabled(s, e) && !e.Create?
  {
    assert TaskShape(s, t) && TaskPhase(s.tasks[t]);
    match s.tasks[t].status
    case Uninitialized =>
      AlwaysLaunchable(s, t);
      e := Launch(t);
    case Ready => e := PublishMoves(s, t);
    case Dispatched =>
      e := if !s.tasks[t].registered then Register(t) else if s.tasks[t].left > 0 then Retire(t) else Fire(t);
  }

  /** When a try finds a pool empty, somebody holds what is missing. */
  lemma SomeHolder(s: State, kernel: Option<nat>) returns (i: nat)
    requires SignalPool(s) && Segments(s) && s.maxSignals > 0
    requires KnownKernel(s, kernel) && !HasResources(s, kernel)
    ensures i < |s.tasks| && s.tasks[i].holding
  {
    if |s.freeSignals| == 0 {
      assert (multiset(s.freeSignals) + Total(s.tasks, HeldSignal))[0] == 1;
      i := TotalFind(s.tasks, 0, HeldSignal);
    } else {
      var k := kernel.value;
      assert SegmentsOf(s, k);
      assert (multiset(s.kernels[k].free) + Total(s.tasks, HeldSegment(k)))[0] == 1;
      i := TotalFind(s.tasks, 0, HeldSegment(k));
    }
  }

  /** The oldest unfinished task waits for nobody: whoever could still notify it is older and done. */
  lemma OldestWaitsForNothing(s: State, t: nat)
    requires Shape(s) && Counts(s) && t < |s.tasks|
    requires forall i :: 0 <= i < |s.tasks| ==> TaskPhase(s.tasks[i])
    requires forall i :: 0 <= i < t ==> s.tasks[i].status == Completed
    ensures s.tasks[t].numPreds == 0
  {
    forall i | 0 <= i < |s.tasks|
      ensures t !in Unnotified(s.tasks[i])
    {
      assert TaskShape(s, i) && TaskPhase(s.tasks[i]);
    }
    TotalZero(s.tasks, t, Unnotified);
  }

  lemma {:induction false} Oldest(s: State, n: nat) returns (t: nat)
    requires n < |s.tasks| && s.tasks[n].status != Completed
    ensures t <= n && s.tasks[t].status != Completed
    ensures forall i :: 0 <= i < t ==> s.tasks[i].status == Completed
  {
    if i :| 0 <= i < n && s.tasks[i].status != Completed {
      t := Oldest(s, i);
    } else {
      t := n;
    }
  }

  /**
    With the callback thread idle and a task unfinished, some task is neither waiting nor completed: the oldest
    unfinished task waits for nobody, so if it waits it is queued, and a queued task is stuck only on resources
    that somebody holds.
   */
  lemma SomebodyIsInFlight(s: State, n: nat) returns (t: nat)
    requires Inv(s) && s.maxSignals > 0 && s.handler == Idle && n < |s.tasks| && s.tasks[n].status != Completed
    ensures t < |s.tasks| && s.tasks[t].status != Initialized && s.tasks[t].status != Completed
  {
    assert forall i :: 0 <= i < |s.tasks| ==> TaskPhase(s.tasks[i]);
    t := Oldest(s, n);
    if s.tasks[t].status == Initialized {
      OldestWaitsForNothing(s, t);
      QueuedIsStuck(s, t);
      t := SomeHolder(s, s.tasks[t].kernel);
      assert TaskPhase(s.tasks[t]);
    }
  }

  /** Outside a handler run, a launched task that waits for no predecessor faces an empty pool. */
  lemma QueuedIsStuck(s: State, t: nat)
    requires Queues(s) && s.handler == Idle && Waits(s, t)
    ensures t in s.readyQueue && KnownKernel(s, s.tasks[t].kernel) && !HasResources(s, s.tasks[t].kernel)
  {
    assert WaitBag(s)[t] == 1;
    assert WaitBag(s) == multiset(s.readyQueue);
    assert t in multiset(s.readyQueue);
    assert Stuck(s, t);
  }

  /**
    Outside a handler run every task in ReadyTaskQueue faces an empty signal pool or an empty segment pool, and
    every launched task that waits for no predecessor is in that queue.
   */
  lemma QueuedTasksAreStuck(s: State, es: seq<Event>, t: nat)
    requires Initial(s) && Possible(s, es) && Exec(s, es).handler == Idle
    ensures var s' := Exec(s, es);
            && (t in s'.readyQueue <==>
                  t < |s'.tasks| && s'.tasks[t].status == Initialized && s'.tasks[t].numPreds == 0)
            && (t in s'.readyQueue ==>
                  var kernel := s'.tasks[t].kernel;
                  && (kernel.Some? ==> kernel.value < |s'.kernels|)
                  && (s'.freeSignals == [] || (kernel.Some? && s'.kernels[kernel.value].free == [])))
            && multiset(s'.readyQueue)[t] <= 1
  {
    InitialHolds(s);
    RunKeeps(s, es);
    var s' := Exec(s, es);
    assert WaitBag(s') == multiset(s'.readyQueue);
    assert WaitBag(s')[t] == if Waits(s', t) then 1 else 0;
    if Waits(s', t) { QueuedIsStuck(s', t); }
  }

  /**
    No reachable state is stuck: with at least one signal, while a task is not COMPLETED or a handler runs, some
    thread or device can take a step other than creating a task.
   */
  lemma NeverStuck(s: State, n: nat) returns (e: Event)
    requires Inv(s) && s.maxSignals > 0
    requires s.handler != Idle || (n < |s.tasks| && s.tasks[n].status != Completed)
    ensures Enabled(s, e) && !e.Create?
  {
    if s.handler != Idle {
      e := HandlerMoves(s);
    } else {
      var t := SomebodyIsInFlight(s, n);
      e := TaskMoves(s, t);
    }
  }

  // ---------------------------------------------------------------- runs are finite

  /** The steps a handler run can take besides notifications, with n tasks in all. */
  function HandlerBudget(n: nat, h: Handler): nat {
    match h
    case Idle => 0
    case Notifying(_, _) => 2 * n + 5
    case Finishing(_) => 2 * n + 4
    case Snapshotting => 2 * n + 3
    case Draining(todo, hand) => 2 * todo + 1 + if hand.Some? then 1 else 0
  }

  /** The steps that task t still has ahead of it, with n tasks in all. */
  function TaskBudget(n: nat, t: Task): nat {
    (match t.status
     case Uninitialized => 2 * n + 6 + t.work + 4 + |t.preds|
     case Initialized => 2 * n + 6 + t.work + 3
     case Ready => 2 * n + 6 + t.left + 1 + if t.registered then 0 else 1
     case Dispatched => 2 * n + 6 + t.left + if t.registered then 0 else 1
     case _ => 0)
    + if t.notified <= |t.succs| then |t.succs| - t.notified else 0
  }

  ghost function Budget(n: nat): Task -> nat {
    (t: Task) => TaskBudget(n, t)
  }

  /** Bounds the number of steps still possible without new tasks. */
  ghost function Measure(s: State): nat {
    Sum(s.tasks, Budget(|s.tasks|)) + HandlerBudget(|s.tasks|, s.handler)
  }

  lemma OneMoreToNotify(x: Task, t: nat, n: nat)
    requires x.notified <= |x.succs|
    ensures TaskBudget(n, x.(succs := x.succs + [t])) == TaskBudget(n, x) + 1
  {
  }

  lemma LinkOneBudget(tasks: seq<Task>, t: nat, p: nat, n: nat)
    requires p < t < |tasks| && tasks[p].notified <= |tasks[p].succs|
    ensures Sum(LinkOne(tasks, t, p), Budget(n)) <= Sum(tasks, Budget(n)) + 1
  {
    if tasks[p].status.Rank() < Executed.Rank() {
      var x := tasks[p].(succs := tasks[p].succs + [t]);
      OneMoreToNotify(tasks[p], t, n);
      SumUpdate(tasks, p, x, Budget(n));
      SumUpdate(tasks[p := x], t, LinkOne(tasks, t, p)[t], Budget(n));
    }
  }

  lemma {:induction false} LinkBudget(tasks: seq<Task>, t: nat, todo: seq<nat>, n: nat)
    requires t < |tasks| && ListsOf(tasks)
    requires forall j :: 0 <= j < |todo| ==> todo[j] < t
    ensures Sum(Link(tasks, t, todo), Budget(n)) <= Sum(tasks, Budget(n)) + |todo|
    decreases |todo|
  {
    if |todo| > 0 {
      LinkOneLists(tasks, t, todo[0]);
      LinkOneBudget(tasks, t, todo[0], n);
      LinkBudget(LinkOne(tasks, t, todo[0]), t, todo[1..], n);
    }
  }

  /** A step that changes one task and the handler. */
  lemma OneTaskBudget(s: State, s': State, i: nat)
    requires OneTask(s, s', i)
    ensures Measure(s') - Measure(s) ==
            TaskBudget(|s.tasks|, s'.tasks[i]) - TaskBudget(|s.tasks|, s.tasks[i])
            + HandlerBudget(|s.tasks|, s'.handler) - HandlerBudget(|s.tasks|, s.handler)
  {
    SumUpdate(s.tasks, i, s'.tasks[i], Budget(|s.tasks|));
  }

  lemma FlightStepsDecrease(s: State, e: Event)
    requires Enabled(s, e) && (e.Publish? || e.Register? || e.Retire?)
    ensures Measure(Step(s, e)) < Measure(s)
  {
    hide Measure, Pooled;
    OneTaskBudget(s, Step(s, e), e.task);
  }

  lemma SimpleStepsDecrease(s: State, e: Event)
    requires Basic(s) && Enabled(s, e)
    requires e.Publish? || e.Register? || e.Retire? || e.Pop? || e.Quit? || e.Complete?
    ensures Measure(Step(s, e)) < Measure(s)
  {
    if e.Publish? || e.Register? || e.Retire? {
      FlightStepsDecrease(s, e);
    } else if e.Complete? {
      assert TaskPhase(s.tasks[s.handler.task]);
      OneTaskBudget(s, Step(s, e), s.handler.task);
    }
  }

  lemma FireDecreases(s: State, t: nat)
    requires Basic(s) && CanFire(s, t)
    ensures Measure(DoFire(s, t)) < Measure(s)
  {
    assert TaskPhase(s.tasks[t]);
    OneTaskBudget(s, DoFire(s, t), t);
  }

  lemma NotifyDecreases(s: State)
    requires Shape(s) && CanNotify(s)
    ensures Measure(DoNotify(s)) < Measure(s)
  {
    var h := s.handler.task;
    var s1 := s.(tasks := s.tasks[h := s.tasks[h].(notified := s.tasks[h].notified + 1)]);
    var v := s.tasks[h].succs[s.tasks[h].notified];
    assert v > h by { assert TaskShape(s, h); }
    OneLessToNotify(s.tasks[h], |s.tasks|);
    SameBudget(s.tasks[v], DoNotify(s).tasks[v].numPreds, |s.tasks|);
    hide Shape, Measure, TaskBudget;
    OneTaskBudget(s, s1, h);
    OneTaskBudget(s1, DoNotify(s), v);
  }

  lemma OneLessToNotify(x: Task, n: nat)
    requires x.notified < |x.succs|
    ensures TaskBudget(n, x.(notified := x.notified + 1)) == TaskBudget(n, x) - 1
  {
  }

  lemma SameBudget(x: Task, count: int, n: nat)
    ensures TaskBudget(n, x.(numPreds := count)) == TaskBudget(n, x)
  {
  }

  lemma ReleaseDecreases(s: State)
    requires CanRelease(s)
    ensures Measure(DoRelease(s)) < Measure(s)
  {
    OneTaskBudget(s, DoRelease(s), s.handler.task);
  }

  /** The queue never holds more than one entry per task, so the snapshot bounds the tries of a handler run. */
  lemma QueueIsShort(s: State)
    requires Waiting(s, None)
    ensures |s.readyQueue| <= |s.tasks|
  {
    forall x: nat
      ensures multiset(s.readyQueue)[x] <= if x < |s.tasks| then 1 else 0
    {
      assert WaitBag(s)[x] == if Waits(s, x) then 1 else 0;
    }
    DistinctBound(s.readyQueue, |s.tasks|);
  }

  lemma SnapshotDecreases(s: State)
    requires Waiting(s, None) && s.handler.Snapshotting?
    ensures Measure(s.(handler := Draining(|s.readyQueue|, None))) < Measure(s)
  {
    QueueIsShort(s);
  }

  lemma ClaimBudget(s: State, t: nat)
    requires Claimable(s, t) && s.tasks[t].status.Rank() < Ready.Rank()
    ensures Measure(Claim(s, t)) < Measure(s)
    ensures s.tasks[t].status == Uninitialized ==> Measure(Claim(s, t)) + |s.tasks[t].preds| < Measure(s)
  {
    OneTaskBudget(s, Claim(s, t), t);
  }

  lemma ParkBudget(s: State, t: nat, queued: bool)
    requires t < |s.tasks| && s.tasks[t].status.Rank() < Ready.Rank()
    ensures Measure(Park(s, t, queued)) <= Measure(s)
    ensures s.tasks[t].status == Uninitialized ==> Measure(Park(s, t, queued)) + |s.tasks[t].preds| < Measure(s)
  {
    OneTaskBudget(s, Park(s, t, queued), t);
  }

  lemma LaunchDecreases(s: State, t: nat)
    requires Shape(s) && Launchable(s, t) && s.tasks[t].status == Uninitialized
    ensures Measure(TryDispatch(s, t)) < Measure(s)
  {
    var preds := s.tasks[t].preds;
    var s1 := s.(tasks := Link(s.tasks, t, preds));
    LaunchCases(s, t);
    LinkKeepsTasks(s.tasks, t, preds);
    assert SameButLinks(s.tasks[t], s1.tasks[t]);
    assert ListsOf(s.tasks) by {
      forall i | 0 <= i < |s.tasks| ensures TaskShape(s, i) {}
    }
    LinkBudget(s.tasks, t, preds, |s.tasks|);
    assert Measure(s1) <= Measure(s) + |preds|;
    var complete := PredsExecuted(s.tasks, preds);
    if complete && HasResources(s1, s.tasks[t].kernel) {
      ClaimBudget(s1, t);
    } else {
      ParkBudget(s1, t, complete);
    }
  }

  lemma RetryDecreases(s: State)
    requires CanRetry(s) && s.tasks[s.handler.hand.value].status == Initialized
    ensures Measure(DoRetry(s)) < Measure(s)
  {
    var t := s.handler.hand.value;
    var s0 := s.(handler := Draining(s.handler.todo, None));
    RetryCases(s);
    assert Measure(s0) < Measure(s);
    if HasResources(s0, s0.tasks[t].kernel) {
      ClaimBudget(s0, t);
    } else {
      ParkBudget(s0, t, true);
    }
  }

  lemma HandIsInitialized(s: State)
    requires Waiting(s, None) && CanRetry(s)
    ensures s.tasks[s.handler.hand.value].status == Initialized
  {
    assert WaitBag(s)[s.handler.hand.value] >= 1;
    assert Waits(s, s.handler.hand.value);
  }

  lemma StepDecreases(s: State, e: Event)
    requires Inv(s) && Enabled(s, e) && !e.Create?
    ensures Measure(Step(s, e)) < Measure(s)
  {
    match e
    case Launch(t) => LaunchDecreases(s, t);
    case Fire(t) => FireDecreases(s, t);
    case NotifyOne => NotifyDecreases(s);
    case Release => ReleaseDecreases(s);
    case Snapshot => SnapshotDecreases(s);
    case Retry =>
      HandIsInitialized(s);
      RetryDecreases(s);
    case _ => SimpleStepsDecrease(s, e);
  }

  ghost predicate NoCreate(es: seq<Event>) {
    forall i :: 0 <= i < |es| ==> !es[i].Create?
  }

  /** From a reachable state, a run without new tasks has at most Measure(s) steps. */
  lemma {:induction false} RunsAreFinite(s: State, es: seq<Event>)
    requires Inv(s) && Possible(s, es) && NoCreate(es)
    ensures |es| + Measure(Exec(s, es)) <= Measure(s)
    decreases |es|
  {
    hide Inv, Measure;
    if |es| > 0 {
      var s1 := Step(s, es[0]);
      StepKeeps(s, es[0]);
      StepDecreases(s, es[0]);
      RunsAreFinite(s1, es[1..]);
    }
  }

  ghost predicate Maximal(s: State, es: seq<Event>)
    requires Possible(s, es)
  {
    forall e: Event :: Enabled(Exec(s, es), e) ==> e.Create?
  }

  /**
    Completion: start anywhere a run can reach, launch no more tasks and let every task in flight finish.  The
    run is finite whatever the interleaving, and where it ends every task is COMPLETED and every signal is back.
   */
  lemma EveryTaskCompletes(s: State, before: seq<Event>, after: seq<Event>)
    requires Initial(s) && s.maxSignals > 0
    requires Possible(s, before) && Possible(Exec(s, before), after) && NoCreate(after)
    ensures |after| <= Measure(Exec(s, before))
    ensures Maximal(Exec(s, before), after) ==>
              var end := Exec(Exec(s, before), after);
              && end.handler == Idle && end.readyQueue == []
              && (forall t :: 0 <= t < |end.tasks| ==> end.tasks[t].status == Completed)
              && EachOnce(multiset(end.freeSignals), s.maxSignals)
  {
    InitialHolds(s);
    RunKeeps(s, before);
    RunsAreFinite(Exec(s, before), after);
    if Maximal(Exec(s, before), after) {
      RunKeeps(Exec(s, before), after);
      SameLimits(s, before);
      SameLimits(Exec(s, before), after);
      EndIsComplete(Exec(Exec(s, before), after));
    }
  }

  lemma EndIsComplete(s: State)
    requires Inv(s) && s.maxSignals > 0
    requires forall e: Event :: Enabled(s, e) ==> e.Create?
    ensures s.handler == Idle && s.readyQueue == []
    ensures forall t :: 0 <= t < |s.tasks| ==> s.tasks[t].status == Completed
    ensures EachOnce(multiset(s.freeSignals), s.maxSignals)
  {
    if s.handler != Idle {
      var e := NeverStuck(s, 0);
    }
    forall t | 0 <= t < |s.tasks|
      ensures s.tasks[t].status == Completed
    {
      if s.tasks[t].status != Completed {
        var e := NeverStuck(s, t);
      }
    }
    assert |s.readyQueue| > 0 ==> WaitBag(s)[s.readyQueue[0]] >= 1;
    EndPoolFull(s);
  }

  lemma EndPoolFull(s: State)
    requires Phases(s) && SignalPool(s)
    requires forall t :: 0 <= t < |s.tasks| ==> s.tasks[t].status == Completed
    ensures EachOnce(multiset(s.freeSignals), s.maxSignals)
  {
    forall g: nat
      ensures multiset(s.freeSignals)[g] == if g < s.maxSignals then 1 else 0
    {
      forall i | 0 <= i < |s.tasks|
        ensures g !in HeldSignal(s.tasks[i])
      {
        assert TaskPhase(s.tasks[i]);
      }
      TotalZero(s.tasks, g, HeldSignal);
      var all := multiset(s.freeSignals) + Total(s.tasks, HeldSignal);
      assert all[g] == if g < s.maxSignals then 1 else 0;
      assert all[g] == multiset(s.freeSignals)[g] + Total(s.tasks, HeldSignal)[g];
    }
  }
}
