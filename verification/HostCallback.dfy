/** Options, as in `kernel_impl`, which is NULL for a data-movement task. */
module Wrappers {
  datatype Option<+T> = None | Some(value: T)
}

/** The states of a task, shared by both ways to enforce dependencies. */
module TaskStates {
  /** `atmi_state_t`. */
  datatype Status = Uninitialized | Initialized | Ready | Dispatched | Executed | Completed {
    function Rank(): int {
      match this
      case Uninitialized => -1
      case Initialized => 0
      case Ready => 1
      case Dispatched => 2
      case Executed => 3
      case Completed => 4
    }
  }
}

/**
  The callback-mode scheduler (`tryDispatchHostCallback`, `handle_signal_callback`, `doProgress`) for
  unordered groups of asynchronous, non-groupable tasks.  A `State` is everything the threads share; an
  `Event` is one locked section, or one action of a device; any interleaving of launching threads, devices
  and the one callback thread is a sequence of events.
 */
module HostCallback {
  import opened Wrappers
  import opened TaskStates
  import opened Bags

  const MAX_NUM_KERNELS: nat := 1024 * 16

  type byte = bv8

  /**
    One task.  `preds`, `kernel`, `work` and `image` are fixed when the task is created: the handles it
    requires, its kernel implementation (None for a copy), the number of times its completion signal will be
    decremented, and the kernel arguments staged by `LaunchTask`.  `notified` is the position of the
    completion handler in `succs`, `left` the number of packets not yet retired, and `holding` says that the
    signal and the segment have not been returned.
   */
  datatype Task = Task(
    preds: seq<nat>, kernel: Option<nat>, work: nat, image: seq<byte>,
    status: Status, numPreds: int, succs: seq<nat>, notified: nat,
    signal: nat, segment: nat, left: nat, registered: bool, holding: bool)

  /**
    A kernel implementation: the free segment numbers and the bytes of every segment of its kernarg region.
    `copySize` is how much of a staged image is copied: all of it, but for the implicit arguments of a GPU kernel.
   */
  datatype KernelImpl = KernelImpl(segmentSize: nat, copySize: nat, free: seq<nat>, segments: seq<seq<byte>>)

  /** Where the callback thread is. */
  datatype Handler =
    | Idle
    | Notifying(task: nat, woken: seq<nat>)
    | Finishing(task: nat)
    | Snapshotting
    | Draining(todo: nat, hand: Option<nat>)

  datatype State = State(
    maxSignals: nat, tasks: seq<Task>, kernels: seq<KernelImpl>,
    freeSignals: seq<nat>, signalValue: seq<int>, readyQueue: seq<nat>, handler: Handler)

  datatype Event =
    | Create(preds: seq<nat>, kernel: Option<nat>, work: nat, image: seq<byte>)
    | Launch(task: nat)
    | Publish(task: nat, tail: seq<byte>)
    | Register(task: nat)
    | Retire(task: nat)
    | Fire(task: nat)
    | NotifyOne
    | Release
    | Complete
    | Snapshot
    | Pop
    | Retry
    | Quit

  // ---------------------------------------------------------------- tryDispatchHostCallback

  /** One turn of the linking loop: wait for predecessor p unless it has executed. */
  function LinkOne(tasks: seq<Task>, t: nat, p: nat): (r: seq<Task>)
    requires p < t < |tasks|
    ensures |r| == |tasks|
  {
    if tasks[p].status.Rank() < Executed.Rank() then
      tasks[p := tasks[p].(succs := tasks[p].succs + [t])][t := tasks[t].(numPreds := tasks[t].numPreds + 1)]
    else
      tasks
  }

  function Link(tasks: seq<Task>, t: nat, todo: seq<nat>): (r: seq<Task>)
    requires t < |tasks|
    requires forall j :: 0 <= j < |todo| ==> todo[j] < t
    ensures |r| == |tasks|
    decreases |todo|
  {
    if |todo| == 0 then tasks else Link(LinkOne(tasks, t, todo[0]), t, todo[1..])
  }

  predicate PredsExecuted(tasks: seq<Task>, preds: seq<nat>)
    requires forall j :: 0 <= j < |preds| ==> preds[j] < |tasks|
  {
    forall j :: 0 <= j < |preds| ==> tasks[preds[j]].status.Rank() >= Executed.Rank()
  }

  predicate KnownKernel(s: State, kernel: Option<nat>) {
    kernel.Some? ==> kernel.value < |s.kernels|
  }

  /** A free signal and, for a kernel, a free segment of its implementation. */
  predicate HasResources(s: State, kernel: Option<nat>)
    requires KnownKernel(s, kernel)
  {
    |s.freeSignals| > 0 && (kernel.Some? ==> |s.kernels[kernel.value].free| > 0)
  }

  /** The pool as the constructors make it: MAX_NUM_KERNELS segments of equal size. */
  ghost predicate Pooled(k: KernelImpl) {
    && k.copySize <= k.segmentSize
    && |k.segments| == MAX_NUM_KERNELS
    && (forall i :: 0 <= i < |k.segments| ==> |k.segments[i]| == k.segmentSize)
    && forall j :: 0 <= j < |k.free| ==> k.free[j] < MAX_NUM_KERNELS
  }

  ghost predicate Regions(s: State) {
    forall k {:trigger s.kernels[k]} :: 0 <= k < |s.kernels| ==> Pooled(s.kernels[k])
  }

  /** Take the segment at the head of the pool and copy the staged arguments into it, without the implicit ones. */
  ghost function TakeSegment(k: KernelImpl, image: seq<byte>): (r: KernelImpl)
    requires Pooled(k) && |k.free| > 0 && |image| == k.segmentSize
  {
    var seg := k.free[0];
    k.(free := k.free[1..], segments := k.segments[seg := image[..k.copySize] + k.segments[seg][k.copySize..]])
  }

  ghost predicate Launchable(s: State, t: nat) {
    && t < |s.tasks|
    && (forall j :: 0 <= j < |s.tasks[t].preds| ==> s.tasks[t].preds[j] < t)
    && KnownKernel(s, s.tasks[t].kernel)
    && (s.tasks[t].kernel.Some? ==> |s.tasks[t].image| == s.kernels[s.tasks[t].kernel.value].segmentSize)
    && Regions(s)
    && |s.signalValue| == s.maxSignals
    && forall j :: 0 <= j < |s.freeSignals| ==> s.freeSignals[j] < s.maxSignals
  }

  /** A task with all it needs takes the head of each pool, and its packets are added to the signal. */
  ghost function Claim(s: State, t: nat): State
    requires Launchable(s, t) && HasResources(s, s.tasks[t].kernel)
  {
    var task := s.tasks[t];
    var sig := s.freeSignals[0];
    var held := task.(status := Ready, signal := sig, left := task.work, holding := true);
    var s1 := s.(freeSignals := s.freeSignals[1..],
                 signalValue := s.signalValue[sig := s.signalValue[sig] + task.work]);
    match task.kernel
    case None => s1.(tasks := s.tasks[t := held])
    case Some(k) =>
      s1.(tasks := s.tasks[t := held.(segment := s.kernels[k].free[0])],
          kernels := s.kernels[k := TakeSegment(s.kernels[k], task.image)])
  }

  /** A task that cannot go now waits: for its predecessors, or in the ready queue for resources. */
  ghost function Park(s: State, t: nat, queued: bool): State
    requires t < |s.tasks|
  {
    s.(tasks := s.tasks[t := s.tasks[t].(status := Initialized)],
       readyQueue := if queued then s.readyQueue + [t] else s.readyQueue)
  }

  ghost function TryDispatch(s: State, t: nat): State
    requires Launchable(s, t)
  {
    var task := s.tasks[t];
    if task.status.Rank() >= Ready.Rank() then s
    else
      var first := task.status.Rank() < Initialized.Rank();
      var linked := if first then Link(s.tasks, t, task.preds) else s.tasks;
      var predecessorsComplete := !first || PredsExecuted(s.tasks, task.preds);
      LinkKeepsTasks(s.tasks, t, task.preds);
      var s1 := s.(tasks := linked);
      if predecessorsComplete && HasResources(s, task.kernel) then Claim(s1, t)
      else
        Park(s1, t, predecessorsComplete)
  }

  /** Linking changes successor lists and t's count, and nothing else. */
  ghost predicate SameButLinks(a: Task, b: Task) {
    b == a.(succs := b.succs, numPreds := b.numPreds)
  }

  lemma {:induction false} LinkKeepsTasks(tasks: seq<Task>, t: nat, todo: seq<nat>)
    requires t < |tasks|
    requires forall j :: 0 <= j < |todo| ==> todo[j] < t
    ensures forall i :: 0 <= i < |tasks| ==> SameButLinks(tasks[i], Link(tasks, t, todo)[i])
    ensures forall i :: t <= i < |tasks| ==> Link(tasks, t, todo)[i].succs == tasks[i].succs
    ensures forall i :: 0 <= i < |tasks| && i != t ==> Link(tasks, t, todo)[i].numPreds == tasks[i].numPreds
    ensures forall i :: 0 <= i < |tasks| ==> tasks[i].succs <= Link(tasks, t, todo)[i].succs
    decreases |todo|
  {
    if |todo| > 0 {
      LinkKeepsTasks(LinkOne(tasks, t, todo[0]), t, todo[1..]);
    }
  }

  // ---------------------------------------------------------------- the steps

  function NewTask(preds: seq<nat>, kernel: Option<nat>, work: nat, image: seq<byte>): Task {
    Task(preds, kernel, work, image, Uninitialized, 0, [], 0, 0, 0, 0, false, false)
  }

  /** Only handles that exist can be required. */
  ghost predicate CanCreate(s: State, preds: seq<nat>, kernel: Option<nat>, work: nat, image: seq<byte>) {
    && (forall j :: 0 <= j < |preds| ==> preds[j] < |s.tasks|)
    && work > 0
    && KnownKernel(s, kernel)
    && (kernel.Some? ==> |image| == s.kernels[kernel.value].segmentSize)
  }

  ghost function DoCreate(s: State, preds: seq<nat>, kernel: Option<nat>, work: nat, image: seq<byte>): State {
    s.(tasks := s.tasks + [NewTask(preds, kernel, work, image)])
  }

  ghost predicate CanPublish(s: State, t: nat, tail: seq<byte>) {
    && t < |s.tasks| && s.tasks[t].status == Ready
    && KnownKernel(s, s.tasks[t].kernel)
    && (s.tasks[t].kernel.Some? ==>
          var k := s.kernels[s.tasks[t].kernel.value];
          && Pooled(k) && s.tasks[t].segment < MAX_NUM_KERNELS && |tail| == k.segmentSize - k.copySize)
  }

  /** `dispatch` fills in the implicit arguments at the end of the segment. */
  ghost function WriteTail(k: KernelImpl, seg: nat, tail: seq<byte>): (r: KernelImpl)
    requires Pooled(k) && seg < MAX_NUM_KERNELS
  {
    k.(segments := k.segments[seg := k.segments[seg][..k.copySize] + tail])
  }

  /** `dispatch`: the packets become visible, and the state says so. */
  ghost function DoPublish(s: State, t: nat, tail: seq<byte>): State
    requires CanPublish(s, t, tail)
  {
    var s1 := s.(tasks := s.tasks[t := s.tasks[t].(status := Dispatched)]);
    match s.tasks[t].kernel
    case None => s1
    case Some(k) => s1.(kernels := s.kernels[k := WriteTail(s.kernels[k], s.tasks[t].segment, tail)])
  }

  /** `dispatch` of a copy may leave the state to a thread of its own, so that it can still be READY afterwards. */
  ghost predicate CanRegister(s: State, t: nat) {
    && t < |s.tasks| && !s.tasks[t].registered
    && (s.tasks[t].status == Dispatched || (s.tasks[t].status == Ready && s.tasks[t].kernel.None?))
  }

  /** The dispatching thread registers the completion handler, after `dispatch`. */
  ghost function DoRegister(s: State, t: nat): State
    requires CanRegister(s, t)
  {
    s.(tasks := s.tasks[t := s.tasks[t].(registered := true)])
  }

  /**
    A device retires a packet; those of a CPU task are visible shortly before its state says so.  The last
    decrement of a copy is made by the thread that has set the state.
   */
  ghost predicate CanRetire(s: State, t: nat) {
    && t < |s.tasks| && (s.tasks[t].status == Ready || s.tasks[t].status == Dispatched)
    && s.tasks[t].left > 0 && s.tasks[t].signal < |s.signalValue|
    && (s.tasks[t].kernel.None? && s.tasks[t].left == 1 ==> s.tasks[t].status == Dispatched)
  }

  ghost function DoRetire(s: State, t: nat): State
    requires CanRetire(s, t)
  {
    var g := s.tasks[t].signal;
    s.(tasks := s.tasks[t := s.tasks[t].(left := s.tasks[t].left - 1)],
       signalValue := s.signalValue[g := s.signalValue[g] - 1])
  }

  /** A registered handler fires once, when its signal is 0; handlers run one at a time. */
  ghost predicate CanFire(s: State, t: nat) {
    && t < |s.tasks| && s.tasks[t].registered && s.handler == Idle
    && s.tasks[t].signal < |s.signalValue| && s.signalValue[s.tasks[t].signal] == 0
  }

  ghost function DoFire(s: State, t: nat): State
    requires CanFire(s, t)
  {
    s.(tasks := s.tasks[t := s.tasks[t].(status := Executed, registered := false)], handler := Notifying(t, []))
  }

  ghost predicate CanNotify(s: State) {
    && s.handler.Notifying? && s.handler.task < |s.tasks|
    && s.tasks[s.handler.task].notified < |s.tasks[s.handler.task].succs|
    && s.tasks[s.handler.task].succs[s.tasks[s.handler.task].notified] < |s.tasks|
  }

  /** One turn of the handler's loop over and_successors_. */
  ghost function DoNotify(s: State): State
    requires CanNotify(s)
  {
    var h := s.handler.task;
    var v := s.tasks[h].succs[s.tasks[h].notified];
    var tasks1 := s.tasks[h := s.tasks[h].(notified := s.tasks[h].notified + 1)];
    var count := tasks1[v].numPreds - 1;
    s.(tasks := tasks1[v := tasks1[v].(numPreds := count)],
       handler := Notifying(h, if count == 0 then s.handler.woken + [v] else s.handler.woken))
  }

  ghost predicate CanRelease(s: State) {
    && s.handler.Notifying? && s.handler.task < |s.tasks|
    && s.tasks[s.handler.task].notified == |s.tasks[s.handler.task].succs|
    && KnownKernel(s, s.tasks[s.handler.task].kernel)
  }

  /** Under the ready-queue and kernel locks: queue the woken tasks, return the signal and the segment. */
  ghost function DoRelease(s: State): State
    requires CanRelease(s)
  {
    var h := s.handler.task;
    var x := s.tasks[h];
    var s1 := s.(readyQueue := s.readyQueue + s.handler.woken, freeSignals := s.freeSignals + [x.signal],
                 tasks := s.tasks[h := x.(holding := false)], handler := Finishing(h));
    match x.kernel
    case None => s1
    case Some(k) => s1.(kernels := s.kernels[k := s.kernels[k].(free := s.kernels[k].free + [x.segment])])
  }

  ghost predicate CanComplete(s: State) {
    s.handler.Finishing? && s.handler.task < |s.tasks|
  }

  ghost function DoComplete(s: State): State
    requires CanComplete(s)
  {
    var h := s.handler.task;
    s.(tasks := s.tasks[h := s.tasks[h].(status := Completed)], handler := Snapshotting)
  }

  ghost predicate CanPop(s: State) {
    s.handler.Draining? && s.handler.hand.None? && s.handler.todo > 0
  }

  ghost function DoPop(s: State): State
    requires CanPop(s)
  {
    if |s.readyQueue| == 0 then s.(handler := Draining(s.handler.todo - 1, None))
    else s.(readyQueue := s.readyQueue[1..], handler := Draining(s.handler.todo - 1, Some(s.readyQueue[0])))
  }

  ghost predicate CanRetry(s: State) {
    s.handler.Draining? && s.handler.hand.Some? && Launchable(s, s.handler.hand.value)
  }

  ghost function DoRetry(s: State): State
    requires CanRetry(s)
  {
    TryDispatch(s.(handler := Draining(s.handler.todo, None)), s.handler.hand.value)
  }

  /** When an event can happen. */
  ghost predicate Enabled(s: State, e: Event) {
    match e
    case Create(preds, kernel, work, image) => CanCreate(s, preds, kernel, work, image)
    case Launch(t) => Launchable(s, t) && s.tasks[t].status == Uninitialized
    case Publish(t, tail) => CanPublish(s, t, tail)
    case Register(t) => CanRegister(s, t)
    case Retire(t) => CanRetire(s, t)
    case Fire(t) => CanFire(s, t)
    case NotifyOne => CanNotify(s)
    case Release => CanRelease(s)
    case Complete => CanComplete(s)
    case Snapshot => s.handler.Snapshotting?
    case Pop => CanPop(s)
    case Retry => CanRetry(s)
    case Quit => s.handler == Draining(0, None)
  }

  /** The effect of an event. */
  ghost function Step(s: State, e: Event): State
    requires Enabled(s, e)
  {
    match e
    case Create(preds, kernel, work, image) => DoCreate(s, preds, kernel, work, image)
    case Launch(t) => TryDispatch(s, t)
    case Publish(t, tail) => DoPublish(s, t, tail)
    case Register(t) => DoRegister(s, t)
    case Retire(t) => DoRetire(s, t)
    case Fire(t) => DoFire(s, t)
    case NotifyOne => DoNotify(s)
    case Release => DoRelease(s)
    case Complete => DoComplete(s)
    case Snapshot => s.(handler := Draining(|s.readyQueue|, None))
    case Pop => DoPop(s)
    case Retry => DoRetry(s)
    case Quit => s.(handler := Idle)
  }

  // ---------------------------------------------------------------- runs

  /** The state after the constructors and `init_tasks`: full pools and no task. */
  ghost predicate Initial(s: State) {
    && s.tasks == [] && s.readyQueue == [] && s.handler == Idle
    && s.freeSignals == Ids(s.maxSignals)
    && |s.signalValue| == s.maxSignals
    && (forall g :: 0 <= g < s.maxSignals ==> s.signalValue[g] == 0)
    && Regions(s)
    && forall k :: 0 <= k < |s.kernels| ==> s.kernels[k].free == Ids(MAX_NUM_KERNELS)
  }

  /** A run, event by event. */
  ghost predicate Possible(s: State, es: seq<Event>)
    decreases |es|
  {
    |es| > 0 ==> Enabled(s, es[0]) && Possible(Step(s, es[0]), es[1..])
  }

  ghost function Exec(s: State, es: seq<Event>): State
    requires Possible(s, es)
    decreases |es|
  {
    if |es| == 0 then s else Exec(Step(s, es[0]), es[1..])
  }
}
