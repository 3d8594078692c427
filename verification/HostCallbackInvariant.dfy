/** What every locked section of the callback-mode scheduler keeps. */
module HostCallbackInvariant {
  import opened Wrappers
  import opened Bags
  import opened TaskStates
  import opened HostCallback

  // ---------------------------------------------------------------- what a task holds

  /** The successors whose count the handler of this task has yet to decrement. */
  ghost function Unnotified(t: Task): multiset<nat> {
    if t.notified <= |t.succs| then multiset(t.succs[t.notified..]) else multiset{}
  }

  ghost function HeldSignal(t: Task): multiset<nat> {
    if t.holding then multiset{t.signal} else multiset{}
  }

  ghost function HeldSegment(k: nat): Task -> multiset<nat> {
    (t: Task) => if t.holding && t.kernel == Some(k) then multiset{t.segment} else multiset{}
  }

  /** Everything that is queued for another try: ReadyTaskQueue, the handler's list, the popped task. */
  ghost function WaitBag(s: State): multiset<nat> {
    multiset(s.readyQueue) +
    (match s.handler
     case Notifying(_, woken) => multiset(woken)
     case Draining(_, Some(t)) => multiset{t}
     case _ => multiset{})
  }

  // ---------------------------------------------------------------- the invariant

  ghost predicate TaskShape(s: State, i: nat)
    requires i < |s.tasks|
  {
    var t := s.tasks[i];
    && (forall j :: 0 <= j < |t.preds| ==> t.preds[j] < i)
    && (forall j :: 0 <= j < |t.succs| ==> i < t.succs[j] < |s.tasks|)
    && t.notified <= |t.succs|
    && t.work > 0 && t.left <= t.work
    && KnownKernel(s, t.kernel)
    && (t.kernel.Some? ==> |t.image| == s.kernels[t.kernel.value].segmentSize)
  }

  ghost predicate Shape(s: State) {
    && |s.signalValue| == s.maxSignals
    && Regions(s)
    && forall i {:trigger TaskShape(s, i)} {:trigger s.tasks[i]} :: 0 <= i < |s.tasks| ==> TaskShape(s, i)
  }

  /** How a task's fields follow its state and the handler's position. */
  ghost predicate TaskPhase(t: Task) {
    && (t.status.Rank() < Executed.Rank() ==> t.notified == 0)
    && (t.status.Rank() >= Executed.Rank() ==> t.left == 0)
    && (t.status.Rank() >= Ready.Rank() ==> t.numPreds == 0)
    && (t.status == Completed ==> t.notified == |t.succs|)
    && (t.registered ==> t.status == Dispatched || (t.status == Ready && t.kernel.None?))
    && (t.status == Ready && t.kernel.None? ==> t.left > 0)
    && (t.holding ==> t.status == Ready || t.status == Dispatched || t.status == Executed)
    && (t.status == Ready || t.status == Dispatched ==> t.holding)
  }

  ghost predicate HandlerPhase(s: State) {
    && (forall i :: 0 <= i < |s.tasks| && s.tasks[i].status == Executed ==>
          (s.handler.Notifying? || s.handler.Finishing?) && s.handler.task == i)
    && (s.handler.Notifying? || s.handler.Finishing? ==>
          s.handler.task < |s.tasks| && s.tasks[s.handler.task].status == Executed)
    && (s.handler.Notifying? ==> s.tasks[s.handler.task].holding)
    && (s.handler.Finishing? ==>
          && !s.tasks[s.handler.task].holding
          && s.tasks[s.handler.task].notified == |s.tasks[s.handler.task].succs|)
  }

  /** Every task obeys its phase, and no task but t was linked without being launched. */
  ghost predicate PhasesBut(s: State, t: Option<nat>) {
    && (forall i :: 0 <= i < |s.tasks| ==> TaskPhase(s.tasks[i]))
    && (forall i :: 0 <= i < |s.tasks| && s.tasks[i].status == Uninitialized && t != Some(i) ==>
          s.tasks[i].numPreds == 0)
    && HandlerPhase(s)
  }

  ghost predicate Phases(s: State) {
    PhasesBut(s, None)
  }

  /** num_predecessors_ counts the task's occurrences in lists that still have to be walked. */
  ghost predicate Counts(s: State) {
    forall i: nat :: Total(s.tasks, Unnotified)[i] == if i < |s.tasks| then s.tasks[i].numPreds else 0
  }

  /** A launched task waits for each predecessor or finds it executed. */
  ghost predicate CoveredBy(tasks: seq<Task>, i: nat, p: nat) {
    p < |tasks| && (tasks[p].status.Rank() >= Executed.Rank() || i in Unnotified(tasks[p]))
  }

  ghost predicate Covered(s: State) {
    forall i, j :: 0 <= i < |s.tasks| && s.tasks[i].status != Uninitialized && 0 <= j < |s.tasks[i].preds| ==>
      CoveredBy(s.tasks, i, s.tasks[i].preds[j])
  }

  /** Exactly the launched tasks that wait for nothing but resources are queued, each once. */
  ghost predicate Waits(s: State, i: nat) {
    i < |s.tasks| && s.tasks[i].status == Initialized && s.tasks[i].numPreds == 0
  }

  ghost predicate Waiting(s: State, floating: Option<nat>) {
    forall i: nat :: WaitBag(s)[i] == if Waits(s, i) && floating != Some(i) then 1 else 0
  }

  /** No signal is lost, duplicated or shared. */
  ghost predicate SignalPool(s: State) {
    EachOnce(multiset(s.freeSignals) + Total(s.tasks, HeldSignal), s.maxSignals)
  }

  /** A free signal is 0, and a held one counts its holder's unretired packets. */
  ghost predicate SignalValues(s: State) {
    && |s.signalValue| == s.maxSignals
    && (forall j :: 0 <= j < |s.freeSignals| ==>
          s.freeSignals[j] < s.maxSignals && s.signalValue[s.freeSignals[j]] == 0)
    && (forall i :: 0 <= i < |s.tasks| && s.tasks[i].holding ==>
          s.tasks[i].signal < s.maxSignals && s.signalValue[s.tasks[i].signal] == s.tasks[i].left)
  }

  ghost predicate Signals(s: State) {
    SignalPool(s) && SignalValues(s)
  }

  /** No kernarg segment is lost, duplicated or shared. */
  ghost predicate SegmentsOf(s: State, k: nat)
    requires k < |s.kernels|
  {
    EachOnce(multiset(s.kernels[k].free) + Total(s.tasks, HeldSegment(k)), MAX_NUM_KERNELS)
  }

  ghost predicate Segments(s: State) {
    forall k {:trigger SegmentsOf(s, k)} {:trigger s.kernels[k]} :: 0 <= k < |s.kernels| ==> SegmentsOf(s, k)
  }

  ghost predicate SegmentHolds(k: KernelImpl, seg: nat, image: seq<byte>) {
    seg < |k.segments| && k.copySize <= |k.segments[seg]| && k.copySize <= |image| &&
    k.segments[seg][..k.copySize] == image[..k.copySize]
  }

  /** The segment of a task in flight holds the arguments staged for it. */
  ghost predicate Memory(s: State) {
    forall i :: 0 <= i < |s.tasks| && s.tasks[i].holding && s.tasks[i].kernel.Some? ==>
      && s.tasks[i].kernel.value < |s.kernels|
      && SegmentHolds(s.kernels[s.tasks[i].kernel.value], s.tasks[i].segment, s.tasks[i].image)
  }

  /** A queued task that a try would find without a signal or without a segment. */
  ghost predicate Stuck(s: State, i: nat) {
    i < |s.tasks| && KnownKernel(s, s.tasks[i].kernel) && !HasResources(s, s.tasks[i].kernel)
  }

  /** Outside the part of a handler run that follows the return of resources, queued tasks are stuck. */
  ghost predicate Blocked(s: State) {
    match s.handler
    case Idle => forall j :: 0 <= j < |s.readyQueue| ==> Stuck(s, s.readyQueue[j])
    case Notifying(_, _) => forall j :: 0 <= j < |s.readyQueue| ==> Stuck(s, s.readyQueue[j])
    case Draining(todo, _) =>
      todo <= |s.readyQueue| && forall j :: todo <= j < |s.readyQueue| ==> Stuck(s, s.readyQueue[j])
    case _ => true
  }

  ghost predicate Basic(s: State) {
    Shape(s) && Phases(s)
  }

  ghost predicate Links(s: State) {
    Counts(s) && Covered(s)
  }

  ghost predicate Resources(s: State) {
    Signals(s) && Segments(s) && Memory(s)
  }

  ghost predicate Queues(s: State) {
    Waiting(s, None) && Blocked(s)
  }

  ghost predicate Inv(s: State) {
    Basic(s) && Links(s) && Resources(s) && Queues(s)
  }

  // ---------------------------------------------------------------- facts about held resources

  lemma HeldIsNotFree(s: State, i: nat)
    requires Shape(s) && Signals(s) && i < |s.tasks| && s.tasks[i].holding
    ensures s.tasks[i].signal !in s.freeSignals
  {
    TotalHas(s.tasks, i, HeldSignal);
    var g := s.tasks[i].signal;
    assert HeldSignal(s.tasks[i])[g] == 1;
    assert (multiset(s.freeSignals) + Total(s.tasks, HeldSignal))[g] <= 1;
  }

  lemma HoldersDiffer(s: State, i: nat, j: nat)
    requires Shape(s) && Signals(s) && i < |s.tasks| && j < |s.tasks| && i != j
    requires s.tasks[i].holding && s.tasks[j].holding
    ensures s.tasks[i].signal != s.tasks[j].signal
  {
    var a, b := if i < j then i else j, if i < j then j else i;
    TotalHasBoth(s.tasks, a, b, HeldSignal);
    var g := s.tasks[i].signal;
    assert HeldSignal(s.tasks[i])[g] == 1;
    assert (multiset(s.freeSignals) + Total(s.tasks, HeldSignal))[g] <= 1;
  }

  lemma SegmentHoldersDiffer(s: State, i: nat, j: nat)
    requires Shape(s) && Segments(s) && i < |s.tasks| && j < |s.tasks| && i != j
    requires s.tasks[i].holding && s.tasks[j].holding
    requires s.tasks[i].kernel.Some? && s.tasks[i].kernel == s.tasks[j].kernel
    ensures s.tasks[i].segment != s.tasks[j].segment
  {
    var k := s.tasks[i].kernel.value;
    var a, b := if i < j then i else j, if i < j then j else i;
    TotalHasBoth(s.tasks, a, b, HeldSegment(k));
    var g := s.tasks[i].segment;
    assert HeldSegment(k)(s.tasks[i])[g] == 1;
    assert SegmentsOf(s, k);
    assert (multiset(s.kernels[k].free) + Total(s.tasks, HeldSegment(k)))[g] <= 1;
  }

  lemma HeldSegmentIsNotFree(s: State, i: nat)
    requires Shape(s) && Segments(s) && i < |s.tasks| && s.tasks[i].holding && s.tasks[i].kernel.Some?
    ensures s.tasks[i].segment < MAX_NUM_KERNELS
    ensures s.tasks[i].segment !in s.kernels[s.tasks[i].kernel.value].free
  {
    var k := s.tasks[i].kernel.value;
    TotalHas(s.tasks, i, HeldSegment(k));
    var g := s.tasks[i].segment;
    assert HeldSegment(k)(s.tasks[i]) == multiset{g};
    assert SegmentsOf(s, k);
    var all := multiset(s.kernels[k].free) + Total(s.tasks, HeldSegment(k));
    assert all[g] == if g < MAX_NUM_KERNELS then 1 else 0;
  }
}
