/**
  The callback-mode scheduler as the runtime runs it: task and kernel objects whose fields the locked sections
  update in place.  Every section is proved to have the effect of the event it stands for.
 */
module HostCallbackRuntime {
  import opened Wrappers
  import opened Bags
  import opened TaskStates
  import opened HostCallback
  import opened HostCallbackInvariant
  import opened HostCallbackSteps
  import opened HostCallbackSafety
  import opened HostCallbackDispatch
  import opened HostCallbackProgress

  /** `TaskImpl`/`ComputeTaskImpl`; tasks are named by their index in AllTasks. */
  class TaskObject {
    const preds: seq<nat>
    const kernel: Option<nat>
    const work: nat
    const image: seq<byte>
    var status: Status
    var numPreds: int
    var succs: seq<nat>
    var signal: nat
    var segment: nat
    // What the runtime does not store: the handler's position, the device's progress, who owns what.
    ghost var notified: nat
    ghost var left: nat
    ghost var registered: bool
    ghost var holding: bool

    ghost function Record(): Task
      reads this
    {
      Task(preds, kernel, work, image, status, numPreds, succs, notified, signal, segment, left, registered, holding)
    }

    constructor (preds: seq<nat>, kernel: Option<nat>, work: nat, image: seq<byte>)
      ensures Record() == NewTask(preds, kernel, work, image)
      ensures this.preds == preds && this.kernel == kernel && this.work == work && this.image == image
    {
      this.preds, this.kernel, this.work, this.image := preds, kernel, work, image;
      status, numPreds, succs, signal, segment := Uninitialized, 0, [], 0, 0;
      notified, left, registered, holding := 0, 0, false, false;
    }
  }

  /** `KernelImpl`. */
  class KernelObject {
    const segmentSize: nat
    const copySize: nat
    var free: seq<nat>
    var segments: seq<seq<byte>>

    ghost function Record(): KernelImpl
      reads this
    {
      KernelImpl(segmentSize, copySize, free, segments)
    }
  }

  class Runtime {
    const maxSignals: nat
    var allTasks: seq<TaskObject>
    var kernels: seq<KernelObject>
    var freeSignals: seq<nat>
    var signalValue: seq<int>
    var readyQueue: seq<nat>
    ghost var handler: Handler

    ghost function Tasks(): (r: seq<Task>)
      reads this, allTasks
      ensures |r| == |allTasks| && forall i :: 0 <= i < |r| ==> r[i] == allTasks[i].Record()
    {
      seq(|allTasks|, i requires 0 <= i < |allTasks| reads this, allTasks => allTasks[i].Record())
    }

    ghost function Kernels(): (r: seq<KernelImpl>)
      reads this, kernels
      ensures |r| == |kernels| && forall i :: 0 <= i < |r| ==> r[i] == kernels[i].Record()
    {
      seq(|kernels|, i requires 0 <= i < |kernels| reads this, kernels => kernels[i].Record())
    }

    /** What the threads share, as a value. */
    ghost function Shared(): State
      reads this, allTasks, kernels
    {
      State(maxSignals, Tasks(), Kernels(), freeSignals, signalValue, readyQueue, handler)
    }

    ghost predicate Valid()
      reads this
    {
      && (forall i, j :: 0 <= i < j < |allTasks| ==> allTasks[i] != allTasks[j])
      && (forall i, j :: 0 <= i < j < |kernels| ==> kernels[i] != kernels[j])
    }

    /** The task is READY, and not yet dispatched. */
    ghost predicate Unpublished(t: nat)
      reads this, allTasks
    {
      t < |allTasks| && allTasks[t].status == Ready && !allTasks[t].registered
    }

    /** One turn of the loop over predecessors_. */
    method LinkTo(t: nat, p: nat) returns (waits: bool)
      requires Valid() && p < t < |allTasks|
      modifies allTasks
      ensures Tasks() == LinkOne(old(Tasks()), t, p)
      ensures waits <==> old(allTasks[p].status).Rank() < Executed.Rank()
    {
      waits := allTasks[p].status.Rank() < Executed.Rank();
      if waits {
        allTasks[p].succs := allTasks[p].succs + [t];
        allTasks[t].numPreds := allTasks[t].numPreds + 1;
      }
    }

    /** The loop over predecessors_: link to those that have not executed. */
    method LinkPredecessors(t: nat) returns (complete: bool)
      requires Valid() && t < |allTasks|
      requires forall j :: 0 <= j < |allTasks[t].preds| ==> allTasks[t].preds[j] < t
      modifies allTasks
      ensures Tasks() == Link(old(Tasks()), t, allTasks[t].preds)
      ensures complete <==> PredsExecuted(old(Tasks()), allTasks[t].preds)
    {
      hide LinkOne, Link, PredsExecuted, SameStatus;
      complete := true;
      var preds := allTasks[t].preds;
      ghost var start := Tasks();
      LinkLoopStart(start, t, preds);
      var i := 0;
      while i < |preds|
        invariant i <= |preds| && |Tasks()| == |start|
        invariant Link(Tasks(), t, preds[i..]) == Link(start, t, preds)
        invariant SameStatus(start, Tasks())
        invariant complete <==> PredsExecuted(start, preds[..i])
      {
        LinkTurn(Tasks(), t, preds, i);
        StatusTurn(start, Tasks(), t, preds, i);
        var waits := LinkTo(t, preds[i]);
        complete := complete && !waits;
        i := i + 1;
      }
      LinkLoopEnd(Tasks(), t, preds);
    }

    /** Take a signal and a segment, and copy the staged arguments into the segment. */
    method ClaimResources(t: nat)
      requires Valid() && Launchable(Shared(), t) && HasResources(Shared(), allTasks[t].kernel)
      modifies this, allTasks[t], kernels
      ensures allTasks == old(allTasks) && kernels == old(kernels)
      ensures Shared() == Claim(old(Shared()), t)
    {
      hide TakeSegment, Claim;
      ghost var s := Shared();
      var task := allTasks[t];
      var sig := freeSignals[0];
      freeSignals := freeSignals[1..];
      if task.kernel.Some? {
        assert Pooled(Kernels()[task.kernel.value]);
        TakeFrom(task.kernel.value, task);
      }
      // acquireAqlPacket
      signalValue := signalValue[sig := signalValue[sig] + task.work];
      Hold(task, sig);
      assert Tasks() == s.tasks[t := Tasks()[t]];
      ClaimParts(s, Shared(), t);
    }

    static method Hold(task: TaskObject, sig: nat)
      modifies task
      ensures task.Record() == old(task.Record()).(status := Ready, signal := sig, left := task.work, holding := true)
    {
      task.signal := sig;
      task.left := task.work;
      task.holding := true;
      task.status := Ready;
    }

    method TakeFrom(k: nat, task: TaskObject)
      requires Valid() && k < |kernels| && Pooled(kernels[k].Record()) && |kernels[k].free| > 0
      requires |task.image| == kernels[k].segmentSize
      modifies task, kernels[k]
      ensures Kernels() == old(Kernels())[k := TakeSegment(old(kernels[k].Record()), task.image)]
      ensures task.Record() == old(task.Record()).(segment := old(kernels[k].free[0]))
    {
      var impl := kernels[k];
      var seg := impl.free[0];
      task.segment := seg;
      impl.free := impl.free[1..];
      impl.segments := impl.segments[seg := task.image[..impl.copySize] + impl.segments[seg][impl.copySize..]];
    }

    /** A first try links; a retry finds its predecessors executed. */
    method LinkFirstTry(t: nat) returns (complete: bool)
      requires Valid() && Launchable(Shared(), t)
      modifies allTasks
      ensures Shared() == Linked(old(Shared()), t)
      ensures complete <==> Unhindered(old(Shared()), t)
    {
      complete := true;
      if allTasks[t].status.Rank() < Initialized.Rank() {
        complete := LinkPredecessors(t);
      }
    }

    method ParkTask(t: nat, queued: bool)
      requires Valid() && t < |allTasks|
      modifies this, allTasks[t]
      ensures allTasks == old(allTasks) && kernels == old(kernels)
      ensures Shared() == Park(old(Shared()), t, queued)
    {
      allTasks[t].status := Initialized;
      if queued {
        readyQueue := readyQueue + [t];
      }
      assert Tasks() == Park(old(Shared()), t, queued).tasks;
    }

    /** `tryDispatchHostCallback`, all of it under one set of locks. */
    method TryDispatchHostCallback(t: nat) returns (dispatched: bool)
      requires Valid() && Launchable(Shared(), t)
      modifies this, allTasks, kernels
      ensures allTasks == old(allTasks) && kernels == old(kernels)
      ensures Shared() == TryDispatch(old(Shared()), t)
      ensures dispatched <==> old(allTasks[t].status).Rank() < Ready.Rank() && allTasks[t].status == Ready
      ensures var s, task := old(Shared()), old(Shared()).tasks[t];
              dispatched <==>
              && task.status.Rank() < Ready.Rank() && s.freeSignals != []
              && (task.kernel.Some? ==> s.kernels[task.kernel.value].free != [])
              && (task.status == Initialized ||
                  forall j :: 0 <= j < |task.preds| ==> s.tasks[task.preds[j]].status.Rank() >= Executed.Rank())
    {
      if allTasks[t].status.Rank() >= Ready.Rank() {
        return false;
      }
      TryCases(Shared(), t);
      var complete := LinkFirstTry(t);
      var kernel := allTasks[t].kernel;
      dispatched := complete && |freeSignals| > 0 && (kernel.None? || |kernels[kernel.value].free| > 0);
      if dispatched {
        ClaimResources(t);
        assert Tasks()[t].status == Ready;
      } else {
        ParkTask(t, complete);
        assert Tasks()[t].status == Initialized;
      }
    }

    // ---------------------------------------------------------------- dispatch

    /** `dispatch` and the registration of the completion handler, outside the locks. */
    method DispatchTask(t: nat, tail: seq<byte>)
      requires Valid() && CanPublish(Shared(), t, tail) && !allTasks[t].registered
      modifies allTasks[t], kernels
      ensures Shared() == DoRegister(DoPublish(old(Shared()), t, tail), t)
    {
      var task := allTasks[t];
      task.status := Dispatched;
      if task.kernel.Some? {
        assert Pooled(Kernels()[task.kernel.value]);
        FillTail(task.kernel.value, task.segment, tail);
      }
      task.registered := true;
      assert Tasks() == DoRegister(DoPublish(old(Shared()), t, tail), t).tasks;
    }

    method FillTail(k: nat, seg: nat, tail: seq<byte>)
      requires Valid() && k < |kernels| && Pooled(kernels[k].Record()) && seg < MAX_NUM_KERNELS
      modifies kernels[k]
      ensures Kernels() == old(Kernels())[k := WriteTail(old(kernels[k].Record()), seg, tail)]
    {
      var impl := kernels[k];
      impl.segments := impl.segments[seg := impl.segments[seg][..impl.copySize] + tail];
    }

    // ---------------------------------------------------------------- handle_signal_callback

    method MarkExecuted(x: nat)
      requires Valid() && CanFire(Shared(), x)
      modifies this`handler, allTasks[x]
      ensures Shared() == DoFire(old(Shared()), x)
    {
      allTasks[x].status := Executed;
      allTasks[x].registered := false;
      handler := Notifying(x, []);
      assert Tasks() == DoFire(old(Shared()), x).tasks;
    }

    /** One successor, under its own lock; tells whether it has become ready. */
    method NotifySuccessor(x: nat, v: nat) returns (ready: bool)
      requires Valid() && CanNotify(Shared()) && handler.task == x && x != v
      requires v == allTasks[x].succs[allTasks[x].notified]
      modifies this`handler, allTasks[x], allTasks[v]
      ensures Shared() == DoNotify(old(Shared()))
      ensures ready <==> allTasks[v].numPreds == 0
    {
      hide DoNotify, Valid, Tasks, Kernels, WithTask;
      ghost var s := Shared();
      WalkOn(x);
      ghost var s1 := Shared();
      ready := Decrement(v);
      MoveHandler(Notifying(x, if ready then handler.woken + [v] else handler.woken));
      NotifyParts(s, s1, Shared(), x, v);
    }

    ghost method MoveHandler(h: Handler)
      modifies this`handler
      ensures Shared() == old(Shared()).(handler := h)
    {
      handler := h;
      assert Tasks() == old(Tasks()) && Kernels() == old(Kernels());
    }

    /** The position in and_successors_. */
    method WalkOn(x: nat)
      requires Valid() && x < |allTasks|
      modifies allTasks[x]
      ensures Shared() == WithTask(old(Shared()), x, old(Tasks())[x].(notified := old(Tasks())[x].notified + 1))
    {
      allTasks[x].notified := allTasks[x].notified + 1;
      assert Tasks() == WithTask(old(Shared()), x, Tasks()[x]).tasks;
    }

    method Decrement(v: nat) returns (ready: bool)
      requires Valid() && v < |allTasks|
      modifies allTasks[v]
      ensures Shared() == WithTask(old(Shared()), v, old(Tasks())[v].(numPreds := old(Tasks())[v].numPreds - 1))
      ensures ready <==> Tasks()[v].numPreds == 0
    {
      allTasks[v].numPreds := allTasks[v].numPreds - 1;
      assert Tasks() == WithTask(old(Shared()), v, Tasks()[v]).tasks;
      ready := allTasks[v].numPreds == 0;
    }

    method ReleaseAll(x: nat, woken: seq<nat>)
      requires Valid() && CanRelease(Shared()) && handler == Notifying(x, woken)
      modifies this, allTasks[x], kernels
      ensures allTasks == old(allTasks) && kernels == old(kernels)
      ensures Shared() == DoRelease(old(Shared()))
    {
      var task := allTasks[x];
      readyQueue := readyQueue + woken;
      freeSignals := freeSignals + [task.signal];
      if task.kernel.Some? {
        var impl := kernels[task.kernel.value];
        impl.free := impl.free + [task.segment];
      }
      task.holding := false;
      handler := Finishing(x);
      assert Tasks() == DoRelease(old(Shared())).tasks;
      assert Kernels() == DoRelease(old(Shared())).kernels;
    }

    method MarkCompleted(x: nat)
      requires Valid() && CanComplete(Shared()) && handler.task == x
      modifies this`handler, allTasks[x]
      ensures Shared() == DoComplete(old(Shared()))
    {
      allTasks[x].status := Completed;
      handler := Snapshotting;
      assert Tasks() == DoComplete(old(Shared())).tasks;
    }

    /** One turn of the handler's loop. */
    method NotifyTurn(x: nat, i: nat) returns (ready: bool)
      requires Valid() && Inv(Shared()) && handler.Notifying? && handler.task == x
      requires x < |allTasks| && i == allTasks[x].notified < |allTasks[x].succs|
      modifies this`handler, allTasks
      ensures CanNotify(old(Shared())) && Shared() == DoNotify(old(Shared())) && Inv(Shared())
      ensures allTasks[x].notified == i + 1
      ensures allTasks[x].succs == old(allTasks[x].succs)
      ensures handler == Notifying(x, if ready then old(handler.woken) + [allTasks[x].succs[i]] else old(handler.woken))
    {
      ghost var s := Shared();
      NotifyEnabled(s, x);
      NotifyKeeps(s);
      ready := NotifySuccessor(x, allTasks[x].succs[i]);
    }

    /** The handler's loop over and_successors_; collects the tasks that became ready. */
    method NotifySuccessors(x: nat) returns (woken: seq<nat>, ghost es: seq<Event>)
      requires Valid() && Inv(Shared()) && handler == Notifying(x, []) && x < |allTasks| && allTasks[x].notified == 0
      modifies this`handler, allTasks
      ensures Ran(old(Shared()), es, Shared()) && Inv(Shared())
      ensures handler == Notifying(x, woken) && x < |allTasks| && allTasks[x].notified == |allTasks[x].succs|
    {
      hide Inv, Ran;
      woken := [];
      var i := 0;
      ghost var s0 := Shared();
      es := RanNone(s0);
      while i < |allTasks[x].succs|
        invariant Ran(s0, es, Shared()) && Inv(Shared())
        invariant handler == Notifying(x, woken)
        invariant i <= |allTasks[x].succs| && allTasks[x].notified == i
        invariant allTasks[x].succs == old(allTasks[x].succs)
      {
        ghost var before := Shared();
        var ready := NotifyTurn(x, i);
        woken := if ready then woken + [allTasks[x].succs[i]] else woken;
        es := RanStep(s0, es, before, NotifyOne);
        i := i + 1;
      }
    }

    /** The body of doProgress's loop: pop a task and try it; a success is dispatched at once. */
    method DrainOne() returns (ghost es: seq<Event>)
      requires Valid() && Inv(Shared()) && handler.Draining? && handler.hand.None? && handler.todo > 0
      modifies this, allTasks, kernels
      ensures allTasks == old(allTasks) && kernels == old(kernels)
      ensures Ran(old(Shared()), es, Shared()) && Inv(Shared())
      ensures handler == Draining(old(handler.todo) - 1, None)
    {
      hide Inv, Ran;
      ghost var s0 := Shared();
      var t, dispatched := PopAndTry();
      es := PopRetryRan(s0);
      if dispatched {
        ghost var s2 := Shared();
        ghost var more := DispatchReady(t);
        es := RanBoth(s0, es, s2, more, Shared());
      }
    }

    method PopAndTry() returns (t: nat, dispatched: bool)
      requires Valid() && Inv(Shared()) && CanPop(Shared())
      modifies this, allTasks, kernels
      ensures allTasks == old(allTasks) && kernels == old(kernels)
      ensures CanRetry(DoPop(old(Shared()))) && Shared() == DoRetry(DoPop(old(Shared()))) && Inv(Shared())
      ensures handler == Draining(old(handler.todo) - 1, None)
      ensures dispatched ==> Unpublished(t)
    {
      hide Inv, Ran;
      PopThenRetry(Shared());
      t := PopReady();
      dispatched := RetryTask(t);
    }

    /** `dispatch` with zeroed implicit arguments. */
    method DispatchReady(t: nat) returns (ghost es: seq<Event>)
      requires Valid() && Inv(Shared()) && Unpublished(t)
      modifies allTasks[t], kernels
      ensures Ran(old(Shared()), es, Shared()) && Inv(Shared()) && allTasks[t].status == Dispatched
    {
      ghost var s := Shared();
      assert TaskShape(s, t) && TaskPhase(s.tasks[t]);
      var kernel := allTasks[t].kernel;
      assert kernel.Some? ==> Pooled(s.kernels[kernel.value]);
      var n := if kernel.None? then 0 else kernels[kernel.value].segmentSize - kernels[kernel.value].copySize;
      var tail := seq(n, _ => 0);
      DispatchRuns(s, t, tail);
      DispatchTask(t, tail);
      es := [Publish(t, tail), Register(t)];
    }

    method PopReady() returns (t: nat)
      requires Valid() && CanPop(Shared()) && |readyQueue| > 0
      modifies this`handler, this`readyQueue
      ensures Shared() == DoPop(old(Shared())) && t == old(readyQueue[0])
    {
      t := readyQueue[0];
      readyQueue := readyQueue[1..];
      handler := Draining(handler.todo - 1, Some(t));
    }

    method RetryTask(t: nat) returns (dispatched: bool)
      requires Valid() && Inv(Shared()) && CanRetry(Shared()) && handler.hand == Some(t)
      modifies this, allTasks, kernels
      ensures allTasks == old(allTasks) && kernels == old(kernels)
      ensures Shared() == DoRetry(old(Shared()))
      ensures handler == Draining(old(handler.todo), None)
      ensures dispatched ==> Unpublished(t)
    {
      hide Inv;
      ghost var s := Shared();
      RetryIsTry(s);
      handler := Draining(handler.todo, None);
      assert Shared() == s.(handler := handler);
      dispatched := TryDispatchHostCallback(t);
      if dispatched {
        TriedIsUnregistered(s, t);
      }
    }

    /** `doProgress` for an unordered group: one try for every task queued when it starts. */
    method DoProgress() returns (ghost es: seq<Event>)
      requires Valid() && Inv(Shared()) && handler == Snapshotting
      modifies this, allTasks, kernels
      ensures allTasks == old(allTasks) && kernels == old(kernels)
      ensures Ran(old(Shared()), es, Shared()) && Inv(Shared()) && handler == Idle
    {
      hide Inv, Ran;
      ghost var s0 := Shared();
      var queueSize := |readyQueue|;
      es := SnapshotRan(s0);
      handler := Draining(queueSize, None);
      assert Shared() == s0.(handler := handler);
      var i := 0;
      while i < queueSize
        invariant i <= queueSize && Valid()
        invariant allTasks == old(allTasks) && kernels == old(kernels)
        invariant Ran(s0, es, Shared()) && Inv(Shared()) && handler == Draining(queueSize - i, None)
      {
        ghost var s1 := Shared();
        ghost var more := DrainOne();
        es := RanBoth(s0, es, s1, more, Shared());
        i := i + 1;
      }
      ghost var s2 := Shared();
      es := QuitRan(s0, es, s2);
      handler := Idle;
      assert Shared() == s2.(handler := Idle);
    }

    /**
      `handle_signal_callback`.  Run without interruption, the handler is one run of the state machine: it ends
      with the task COMPLETED, its resources returned, and nothing in the ready queue that could go.
     */
    method HandleSignalCallback(x: nat) returns (ghost es: seq<Event>)
      requires Valid() && Inv(Shared()) && CanFire(Shared(), x)
      modifies this, allTasks, kernels
      ensures allTasks == old(allTasks) && kernels == old(kernels)
      ensures Ran(old(Shared()), es, Shared()) && Inv(Shared()) && handler == Idle
      ensures allTasks[x].status == Completed && !allTasks[x].holding
      ensures forall j :: 0 <= j < |readyQueue| ==> Stuck(Shared(), readyQueue[j])
    {
      hide Inv, Ran;
      ghost var s0 := Shared();
      ghost var first := FinishTask(x);
      ghost var s1 := Shared();
      ghost var rest := DoProgress();
      CompletedStays(s1, rest, Shared(), x);
      es := RanBoth(s0, first, s1, rest, Shared());
      IdleQueueIsStuck(Shared());
    }

    /** Everything up to doProgress. */
    method FinishTask(x: nat) returns (ghost es: seq<Event>)
      requires Valid() && Inv(Shared()) && CanFire(Shared(), x)
      modifies this, allTasks, kernels
      ensures allTasks == old(allTasks) && kernels == old(kernels)
      ensures Ran(old(Shared()), es, Shared()) && Inv(Shared()) && handler == Snapshotting
      ensures allTasks[x].status == Completed
    {
      hide Inv, Ran;
      ghost var s0 := Shared();
      var woken;
      woken, es := ExecuteTask(x);
      ghost var s1 := Shared();
      ghost var more := ReleaseRan(s1, x);
      ReleaseAll(x, woken);
      MarkCompleted(x);
      es := RanBoth(s0, es, s1, more, Shared());
    }

    /** Mark the task EXECUTED and tell its successors. */
    method ExecuteTask(x: nat) returns (woken: seq<nat>, ghost es: seq<Event>)
      requires Valid() && Inv(Shared()) && CanFire(Shared(), x)
      modifies this`handler, allTasks
      ensures Ran(old(Shared()), es, Shared()) && Inv(Shared())
      ensures handler == Notifying(x, woken) && x < |allTasks| && allTasks[x].notified == |allTasks[x].succs|
    {
      hide Inv, Ran;
      ghost var s0 := Shared();
      ghost var first := FireRan(s0, x);
      MarkExecuted(x);
      ghost var s1 := Shared();
      woken, es := NotifySuccessors(x);
      es := RanBoth(s0, first, s1, es, Shared());
    }
  }

  /** A notification by its parts. */
  lemma NotifyParts(s: State, s1: State, s2: State, x: nat, v: nat)
    requires CanNotify(s) && s.handler.task == x && v == s.tasks[x].succs[s.tasks[x].notified]
    requires s1 == WithTask(s, x, s.tasks[x].(notified := s.tasks[x].notified + 1))
    requires var w := WithTask(s1, v, s1.tasks[v].(numPreds := s1.tasks[v].numPreds - 1));
             var woken := if w.tasks[v].numPreds == 0 then s.handler.woken + [v] else s.handler.woken;
             s2 == w.(handler := Notifying(x, woken))
    ensures s2 == DoNotify(s)
  {
  }

  ghost function WithTask(s: State, t: nat, task: Task): State
    requires t < |s.tasks|
  {
    s.(tasks := s.tasks[t := task])
  }

  /** A claim by its parts. */
  lemma ClaimParts(s: State, s': State, t: nat)
    requires Launchable(s, t) && HasResources(s, s.tasks[t].kernel)
    requires s' == s.(freeSignals := s.freeSignals[1..], signalValue := s'.signalValue, tasks := s'.tasks,
                      kernels := s'.kernels)
    requires |s'.tasks| == |s.tasks| && s'.tasks == s.tasks[t := s'.tasks[t]]
    requires s'.signalValue == s.signalValue[s.freeSignals[0] := s.signalValue[s.freeSignals[0]] + s.tasks[t].work]
    requires var held := s.tasks[t].(status := Ready, signal := s.freeSignals[0], left := s.tasks[t].work,
                                     holding := true);
             match s.tasks[t].kernel
             case None => s'.kernels == s.kernels && s'.tasks[t] == held
             case Some(k) =>
               && s'.kernels == s.kernels[k := TakeSegment(s.kernels[k], s.tasks[t].image)]
               && s'.tasks[t] == held.(segment := s.kernels[k].free[0])
    ensures s' == Claim(s, t)
  {
    hide TakeSegment;
  }

  // ---------------------------------------------------------------- sections strung together

  ghost predicate Ran(s: State, es: seq<Event>, s': State) {
    Possible(s, es) && Exec(s, es) == s'
  }

  lemma RanNone(s: State) returns (es: seq<Event>)
    ensures Ran(s, es, s)
  {
    es := [];
  }

  lemma {:induction false} RanTogether(a: State, es: seq<Event>, b: State, fs: seq<Event>, c: State)
    requires Ran(a, es, b) && Ran(b, fs, c)
    ensures Ran(a, es + fs, c)
    decreases |es|
  {
    if |es| == 0 {
      assert es + fs == fs;
    } else {
      assert (es + fs)[1..] == es[1..] + fs && (es + fs)[0] == es[0];
      RanTogether(Step(a, es[0]), es[1..], b, fs, c);
    }
  }

  lemma RanBoth(a: State, es: seq<Event>, b: State, fs: seq<Event>, c: State) returns (all: seq<Event>)
    requires Ran(a, es, b) && Ran(b, fs, c)
    ensures Ran(a, all, c)
  {
    RanTogether(a, es, b, fs, c);
    all := es + fs;
  }

  lemma RanStep(a: State, es: seq<Event>, b: State, e: Event) returns (all: seq<Event>)
    requires Ran(a, es, b) && Enabled(b, e)
    ensures Ran(a, all, Step(b, e))
  {
    var c := Step(b, e);
    assert [e][1..] == [];
    assert Ran(c, [], c);
    assert Ran(b, [e], c);
    all := RanBoth(a, es, b, [e], c);
  }

  lemma FireRan(s: State, x: nat) returns (es: seq<Event>)
    requires Inv(s) && CanFire(s, x)
    ensures Ran(s, es, DoFire(s, x)) && Inv(DoFire(s, x)) && s.tasks[x].notified == 0
  {
    hide Inv, Ran;
    FireKeeps(s, x);
    FirstNotified(s, x);
    es := RanNone(s);
    es := RanStep(s, es, s, Fire(x));
  }

  lemma FirstNotified(s: State, x: nat)
    requires Inv(s) && CanFire(s, x)
    ensures s.tasks[x].notified == 0
  {
    assert TaskPhase(s.tasks[x]);
  }

  lemma ReleaseRan(s: State, x: nat) returns (es: seq<Event>)
    requires Inv(s) && s.handler.Notifying? && s.handler.task == x
    requires x < |s.tasks| && s.tasks[x].notified == |s.tasks[x].succs|
    ensures CanRelease(s) && CanComplete(DoRelease(s))
    ensures Ran(s, es, DoComplete(DoRelease(s))) && Inv(DoComplete(DoRelease(s)))
  {
    ReleaseEnabled(s, x);
    ReleaseKeeps(s);
    CompleteKeeps(DoRelease(s));
    es := TwoSteps(s, Release, Complete);
  }

  lemma TwoSteps(s: State, e: Event, f: Event) returns (es: seq<Event>)
    requires Enabled(s, e) && Enabled(Step(s, e), f)
    ensures Ran(s, es, Step(Step(s, e), f))
  {
    es := RanStep(s, [], s, e);
    es := RanStep(s, es, Step(s, e), f);
  }

  lemma PopThenRetry(s: State)
    requires Inv(s) && CanPop(s)
    ensures |s.readyQueue| > 0 && CanRetry(DoPop(s)) && DoPop(s).handler.hand == Some(s.readyQueue[0])
    ensures Inv(DoPop(s)) && Inv(DoRetry(DoPop(s)))
  {
    PopBlocked(s);
    PopKeeps(s);
    RetryEnabled(DoPop(s));
    RetryKeeps(DoPop(s));
  }

  lemma PopRetryRan(s: State) returns (es: seq<Event>)
    requires CanPop(s) && CanRetry(DoPop(s))
    ensures Ran(s, es, DoRetry(DoPop(s)))
  {
    es := TwoSteps(s, Pop, Retry);
  }

  lemma RetryIsTry(s: State)
    requires CanRetry(s)
    ensures Launchable(s.(handler := Draining(s.handler.todo, None)), s.handler.hand.value)
    ensures DoRetry(s) == TryDispatch(s.(handler := Draining(s.handler.todo, None)), s.handler.hand.value)
  {
  }

  lemma SnapshotRan(s: State) returns (es: seq<Event>)
    requires Inv(s) && s.handler == Snapshotting
    ensures var s' := s.(handler := Draining(|s.readyQueue|, None)); Ran(s, es, s') && Inv(s')
  {
    SnapshotKeeps(s);
    es := RanStep(s, [], s, Snapshot);
  }

  lemma QuitRan(a: State, es: seq<Event>, s: State) returns (all: seq<Event>)
    requires Ran(a, es, s) && Inv(s) && s.handler == Draining(0, None)
    ensures Ran(a, all, s.(handler := Idle)) && Inv(s.(handler := Idle))
  {
    QuitKeeps(s);
    all := RanStep(a, es, s, Quit);
  }

  lemma IdleQueueIsStuck(s: State)
    requires Inv(s) && s.handler == Idle
    ensures forall j :: 0 <= j < |s.readyQueue| ==> Stuck(s, s.readyQueue[j])
  {
  }

  lemma NotifyEnabled(s: State, x: nat)
    requires Basic(s) && s.handler.Notifying? && s.handler.task == x
    requires x < |s.tasks| && s.tasks[x].notified < |s.tasks[x].succs|
    ensures CanNotify(s) && x < s.tasks[x].succs[s.tasks[x].notified]
  {
    assert TaskShape(s, x);
  }

  lemma ReleaseEnabled(s: State, x: nat)
    requires Basic(s) && s.handler.Notifying? && s.handler.task == x
    requires x < |s.tasks| && s.tasks[x].notified == |s.tasks[x].succs|
    ensures CanRelease(s)
  {
    assert TaskShape(s, x);
  }

  lemma RetryEnabled(s: State)
    requires Basic(s) && SignalValues(s) && Waiting(s, None) && s.handler.Draining? && s.handler.hand.Some?
    ensures CanRetry(s)
  {
    var e := HandlerMoves(s);
  }

  /** A task that a try has made READY has no handler yet. */
  lemma TriedIsUnregistered(s: State, t: nat)
    requires Inv(s) && CanRetry(s) && s.handler.hand == Some(t) && s.tasks[t].status.Rank() < Ready.Rank()
    ensures !DoRetry(s).tasks[t].registered
  {
    assert TaskPhase(s.tasks[t]);
    hide Inv, TryDispatch, Launchable;
    RetryIsTry(s);
    TryLeavesHandler(s.(handler := Draining(s.handler.todo, None)), t);
  }

  /** A try registers nothing. */
  lemma TryLeavesHandler(s: State, t: nat)
    requires Launchable(s, t)
    ensures t < |TryDispatch(s, t).tasks| && TryDispatch(s, t).tasks[t].registered == s.tasks[t].registered
  {
    LinkKeepsTasks(s.tasks, t, s.tasks[t].preds);
    hide Link, TakeSegment, HasResources, PredsExecuted, Pooled;
  }

  /** The length of the part of a segment that `dispatch` fills in. */
  ghost predicate TailFits(s: State, kernel: Option<nat>, n: nat) {
    && KnownKernel(s, kernel)
    && n == if kernel.None? then 0 else s.kernels[kernel.value].segmentSize - s.kernels[kernel.value].copySize
  }

  lemma MayDispatch(s: State, t: nat, tail: seq<byte>)
    requires Inv(s) && t < |s.tasks| && s.tasks[t].status == Ready && !s.tasks[t].registered
    requires TailFits(s, s.tasks[t].kernel, |tail|)
    ensures CanPublish(s, t, tail) && CanRegister(DoPublish(s, t, tail), t)
  {
    assert TaskPhase(s.tasks[t]);
    if s.tasks[t].kernel.Some? {
      assert Pooled(s.kernels[s.tasks[t].kernel.value]);
      HeldSegmentIsNotFree(s, t);
    }
  }

  lemma DispatchRuns(s: State, t: nat, tail: seq<byte>)
    requires Inv(s) && t < |s.tasks| && s.tasks[t].status == Ready && !s.tasks[t].registered
    requires TailFits(s, s.tasks[t].kernel, |tail|)
    ensures CanPublish(s, t, tail) && CanRegister(DoPublish(s, t, tail), t)
    ensures var s' := DoRegister(DoPublish(s, t, tail), t);
            Ran(s, [Publish(t, tail), Register(t)], s') && Inv(s')
  {
    MayDispatch(s, t, tail);
    hide Inv, CanPublish, Pooled;
    var s1 := DoPublish(s, t, tail);
    PublishKeeps(s, t, tail);
    RegisterKeeps(s1, t);
    DispatchRan(s, t, tail);
  }

  lemma DispatchRan(s: State, t: nat, tail: seq<byte>)
    requires CanPublish(s, t, tail) && CanRegister(DoPublish(s, t, tail), t)
    ensures Ran(s, [Publish(t, tail), Register(t)], DoRegister(DoPublish(s, t, tail), t))
  {
    var es := [Publish(t, tail), Register(t)];
    assert es[1..] == [Register(t)];
    assert Possible(DoRegister(DoPublish(s, t, tail), t), []);
    assert [Register(t)][1..] == [];
    assert Ran(DoPublish(s, t, tail), [Register(t)], DoRegister(DoPublish(s, t, tail), t));
  }

  lemma CompletedStays(s: State, es: seq<Event>, s': State, x: nat)
    requires Inv(s) && Ran(s, es, s') && x < |s.tasks| && s.tasks[x].status == Completed
    ensures x < |s'.tasks| && s'.tasks[x].status == Completed && !s'.tasks[x].holding
  {
    RunAdvances(s, es);
    RunKeeps(s, es);
    assert Advances(s.tasks[x], s'.tasks[x]);
    assert TaskPhase(s'.tasks[x]);
  }

  /** The state after the linking loop, which only a first try runs. */
  ghost function Linked(s: State, t: nat): State
    requires Launchable(s, t)
  {
    if s.tasks[t].status.Rank() < Initialized.Rank() then s.(tasks := Link(s.tasks, t, s.tasks[t].preds)) else s
  }

  ghost predicate Unhindered(s: State, t: nat)
    requires Launchable(s, t)
  {
    s.tasks[t].status.Rank() < Initialized.Rank() ==> PredsExecuted(s.tasks, s.tasks[t].preds)
  }

  lemma TryCases(s: State, t: nat)
    requires Launchable(s, t) && s.tasks[t].status.Rank() < Ready.Rank()
    ensures Launchable(Linked(s, t), t) && Linked(s, t).tasks[t].kernel == s.tasks[t].kernel
    ensures TryDispatch(s, t) ==
            if Unhindered(s, t) && HasResources(Linked(s, t), s.tasks[t].kernel) then Claim(Linked(s, t), t)
            else Park(Linked(s, t), t, Unhindered(s, t))
  {
    LinkKeepsTasks(s.tasks, t, s.tasks[t].preds);
    assert SameButLinks(s.tasks[t], Link(s.tasks, t, s.tasks[t].preds)[t]);
    assert s.(tasks := s.tasks) == s;
  }

  ghost predicate SameStatus(a: seq<Task>, b: seq<Task>) {
    |a| == |b| && forall i :: 0 <= i < |a| ==> b[i].status == a[i].status
  }

  lemma LinkLoopStart(start: seq<Task>, t: nat, preds: seq<nat>)
    requires t < |start| && forall j :: 0 <= j < |preds| ==> preds[j] < t
    ensures preds[0..] == preds && SameStatus(start, start) && PredsExecuted(start, preds[..0])
  {
  }

  lemma LinkLoopEnd(tasks: seq<Task>, t: nat, preds: seq<nat>)
    requires t < |tasks|
    ensures preds[..|preds|] == preds && Link(tasks, t, preds[|preds|..]) == tasks
  {
  }

  lemma LinkTurn(tasks: seq<Task>, t: nat, preds: seq<nat>, i: nat)
    requires t < |tasks| && i < |preds| && forall j :: 0 <= j < |preds| ==> preds[j] < t
    ensures Link(tasks, t, preds[i..]) == Link(LinkOne(tasks, t, preds[i]), t, preds[i + 1..])
  {
    assert preds[i..][1..] == preds[i + 1..];
  }

  lemma StatusTurn(start: seq<Task>, tasks: seq<Task>, t: nat, preds: seq<nat>, i: nat)
    requires t < |tasks| && i < |preds| && forall j :: 0 <= j < |preds| ==> preds[j] < t
    requires SameStatus(start, tasks)
    ensures SameStatus(start, LinkOne(tasks, t, preds[i]))
    ensures PredsExecuted(start, preds[..i + 1]) <==>
            PredsExecuted(start, preds[..i]) && !(tasks[preds[i]].status.Rank() < Executed.Rank())
  {
    assert preds[..i + 1] == preds[..i] + [preds[i]];
  }
}
