/**
  What lets devices get on, step by step: slots, the signals that barriers list, what the head of a queue waits
  for, and how much work is left.
 */
module BarrierProgress {
  import opened TaskStates
  import opened Bags
  import opened BarrierMode
  import opened BarrierInvariant
  import opened BarrierSteps
  import opened BarrierQueues
  import opened BarrierDispatch
  import opened BarrierBatch
  import opened BarrierSafety

  // ---------------------------------------------------------------- slots

  ghost function SlotOf(p: Packet): multiset<nat> {
    if p.Slot? then multiset{p.task} else multiset{}
  }

  ghost function SlotsOf(queue: seq<Packet>): multiset<nat> {
    Total(queue, SlotOf)
  }

  ghost predicate WaitsToStart(tasks: seq<BTask>, t: nat) {
    t < |tasks| && tasks[t].status.Rank() >= Ready.Rank() && !tasks[t].started
  }

  /** A dispatched task that has not started has one slot on one queue, and nobody else has any. */
  ghost predicate SlotsOnce(s: BState) {
    forall t: nat :: Total(s.queues, SlotsOf)[t] == if WaitsToStart(s.tasks, t) then 1 else 0
  }

  lemma SlotSomewhere(s: BState, n: nat) returns (q: nat, i: nat)
    requires SlotsOnce(s) && WaitsToStart(s.tasks, n)
    ensures q < |s.queues| && i < |s.queues[q]| && s.queues[q][i] == Slot(n)
  {
    assert Total(s.queues, SlotsOf)[n] == 1;
    q := TotalFind(s.queues, n, SlotsOf);
    i := TotalFind(s.queues[q], n, SlotOf);
  }

  lemma SlotWaits(s: BState, q: nat, i: nat)
    requires SlotsOnce(s) && q < |s.queues| && i < |s.queues[q]| && s.queues[q][i].Slot?
    ensures WaitsToStart(s.tasks, s.queues[q][i].task)
  {
    var n := s.queues[q][i].task;
    TotalHas(s.queues[q], i, SlotOf);
    TotalHas(s.queues, q, SlotsOf);
    assert n in Total(s.queues, SlotsOf);
  }

  /** A task has one slot at most, so one that is behind the head of queue q is not at the head of another. */
  lemma SlotIsElsewhere(s: BState, q: nat, i: nat, p: nat)
    requires SlotsOnce(s) && q < |s.queues| && 0 < i < |s.queues[q]| && s.queues[q][i].Slot?
    requires p < |s.queues| && |s.queues[p]| > 0 && s.queues[p][0].Slot?
    ensures s.queues[p][0].task != s.queues[q][i].task
  {
    var n := s.queues[q][i].task;
    assert Total(s.queues, SlotsOf)[n] <= 1;
    if p == q {
      TotalHasBoth(s.queues[q], 0, i, SlotOf);
      TotalHas(s.queues, q, SlotsOf);
    } else {
      TotalHas(s.queues[p], 0, SlotOf);
      TotalHas(s.queues[q], i, SlotOf);
      TotalHasBoth(s.queues, if p < q then p else q, if p < q then q else p, SlotsOf);
    }
  }

  // ---------------------------------------------------------------- signals

  /** The signals that were ever given to a task, or put into a barrier. */
  ghost predicate SignalsBelow(s: BState, bound: nat) {
    && TaskSignals(s.tasks, bound)
    && forall q {:trigger s.queues[q]} :: 0 <= q < |s.queues| ==> BarriersExist(bound, s.queues[q])
  }

  ghost predicate TaskSignals(tasks: seq<BTask>, bound: nat) {
    forall t :: 0 <= t < |tasks| && tasks[t].status.Rank() >= Ready.Rank() ==> tasks[t].signal < bound
  }

  ghost predicate BarriersExist(bound: nat, queue: seq<Packet>) {
    forall i, k :: 0 <= i < |queue| && queue[i].Barrier? && 0 <= k < |queue[i].waiting| ==>
      queue[i].waiting[k] < bound
  }

  ghost predicate Lively(s: BState) {
    SlotsOnce(s) && SignalsBelow(s, s.maxSignals)
  }

  /** A signal that is not 0 is that of a task that has not finished. */
  lemma OwnerOf(s: BState, g: nat) returns (m: nat)
    requires SignalPool(s) && SignalValues(s) && g < s.maxSignals && s.signalValue[g] != 0
    ensures m < |s.tasks| && Owns(s.tasks[m]) && !s.tasks[m].finished && s.tasks[m].signal == g
  {
    var all := multiset(s.freeSignals) + Total(s.tasks, OwnedSignal);
    assert all[g] == 1;
    assert forall j :: 0 <= j < |s.freeSignals| ==> s.freeSignals[j] != g;
    m := TotalFind(s.tasks, g, OwnedSignal);
  }

  lemma SignalIsUp(s: BState, n: nat)
    requires Inv(s) && n < |s.tasks| && Owns(s.tasks[n]) && !s.tasks[n].finished
    ensures s.tasks[n].signal < |s.signalValue| && s.signalValue[s.tasks[n].signal] != 0
  {
  }

  // ---------------------------------------------------------------- what the head of a queue lets happen

  /** Steps of devices and of dispatch(), which need no free signal and no new task. */
  predicate DeviceStep(e: BEvent) {
    e.Publish? || e.Observe? || e.BarrierDone? || e.Start? || e.Finish?
  }

  /** Those of a processor that looks at a barrier's signals in order, as CPU workers do. */
  predicate NextStep(e: BEvent) {
    DeviceStep(e) && (e.Observe? ==> e.i == 0)
  }

  /** The head of the queue is a barrier that has still to see the signal of task n, which has not finished. */
  ghost predicate HeadWaitsFor(s: BState, q: nat, n: nat) {
    && q < |s.queues| && n < |s.tasks| && |s.queues[q]| > 0 && s.queues[q][0].Barrier?
    && Owns(s.tasks[n]) && !s.tasks[n].finished && s.tasks[n].signal in s.queues[q][0].waiting
  }

  lemma TellsBatch(s: BState, q: nat)
    requires BatchOk(s) && q < |s.queues| && |s.queues[q]| > 0 && s.queues[q][0].Barrier? && s.queues[q][0].notify
    ensures s.batch.Enqueued?
  {
  }

  /** A slot at the head: its task is published, or starts. */
  lemma SlotMoves(s: BState, q: nat) returns (e: BEvent)
    requires Queues(s) && q < |s.queues| && |s.queues[q]| > 0 && s.queues[q][0].Slot?
    ensures NextStep(e) && Enabled(s, e)
  {
    var head := s.queues[q][0];
    assert QueueOk(s.tasks, s.queues[q]);
    assert SlotOk(s.tasks, s.queues[q], 0);
    e := if s.tasks[head.task].status == Ready then Publish(head.task) else Start(q);
  }

  /** A barrier at the head that may be looked at: it completes, sees a signal, or waits for somebody. */
  lemma BarrierMoves(s: BState, q: nat) returns (e: BEvent, m: nat)
    requires SignalPool(s) && SignalValues(s) && BatchOk(s) && SignalsBelow(s, s.maxSignals) && Looks(s, q)
    ensures (NextStep(e) && Enabled(s, e)) || HeadWaitsFor(s, q, m)
  {
    hide SignalPool, BatchOk, Drained;
    var head := s.queues[q][0];
    e, m := EndBatch, 0;
    if head.waiting == [] {
      if head.notify { TellsBatch(s, q); }
      e := BarrierDone(q);
    } else {
      assert BarriersExist(s.maxSignals, s.queues[q]);
      if s.signalValue[head.waiting[0]] == 0 {
        e := Observe(q, 0);
      } else {
        m := OwnerOf(s, head.waiting[0]);
      }
    }
  }

  /** A barrier bit holds its packet up for a kernel that can finish. */
  lemma BitMoves(s: BState, q: nat) returns (e: BEvent)
    requires Tasks(s) && SignalValues(s) && !Drained(s.tasks, q)
    ensures NextStep(e) && Enabled(s, e)
  {
    var t :| 0 <= t < |s.tasks| && s.tasks[t].started && s.tasks[t].queue == q && !s.tasks[t].finished;
    e := TaskMoves(s, t);
  }

  /** A task that has been dispatched is published, finishes, or waits in its queue. */
  lemma TaskMoves(s: BState, n: nat) returns (e: BEvent)
    requires Tasks(s) && SignalValues(s) && n < |s.tasks| && !s.tasks[n].finished
    requires s.tasks[n].status == Ready || s.tasks[n].started
    ensures NextStep(e) && Enabled(s, e)
  {
    assert TaskOk(s, n) && Owns(s.tasks[n]);
    e := if s.tasks[n].status == Ready then Publish(n) else Finish(n);
  }

  /** What the head of a nonempty queue lets happen, or whom it waits for. */
  lemma HeadMoves(s: BState, q: nat) returns (e: BEvent, m: nat)
    requires Inv(s) && SignalsBelow(s, s.maxSignals) && q < |s.queues| && |s.queues[q]| > 0
    ensures (NextStep(e) && Enabled(s, e)) || HeadWaitsFor(s, q, m)
  {
    hide Tasks, SignalPool, SignalValues, InFlight, Safe, Queues, Sinks, BatchOk, Peeks, CreatedOk, SignalsBelow,
      Enabled, HeadWaitsFor, Drained;
    m := 0;
    if s.queues[q][0].Slot? {
      e := SlotMoves(s, q);
    } else if s.queues[q][0].bit && !Drained(s.tasks, q) {
      e := BitMoves(s, q);
    } else {
      e, m := BarrierMoves(s, q);
    }
  }

  // ---------------------------------------------------------------- how much is left

  ghost function TaskWork(t: BTask): nat {
    (if t.status == Ready then 1 else 0) + (if t.finished then 0 else 1)
  }

  ghost function PacketWork(p: Packet): nat {
    match p
    case Barrier(waiting, _, _) => 1 + |waiting|
    case Slot(_) => 1
  }

  ghost function QueueWork(queue: seq<Packet>): nat {
    Sum(queue, PacketWork)
  }

  /** Publications, signals to see, packets to process and kernels to finish. */
  ghost function Work(s: BState): nat {
    Sum(s.tasks, TaskWork) + Sum(s.queues, QueueWork)
  }

  /** A queue's work after its head has seen a signal, or gone. */
  lemma SeenWork(queue: seq<Packet>, i: nat)
    requires CanSee(queue, i)
    ensures QueueWork(Seen(queue, i)) + 1 == QueueWork(queue)
  {
    assert Seen(queue, i)[1..] == queue[1..];
    SumTail(queue, PacketWork);
    SumTail(Seen(queue, i), PacketWork);
  }

  lemma PopWork(queue: seq<Packet>)
    requires |queue| > 0 && (queue[0].Barrier? ==> queue[0].waiting == [])
    ensures QueueWork(queue[1..]) + 1 == QueueWork(queue)
  {
    SumTail(queue, PacketWork);
  }

  lemma QueueDown(s: BState, s': BState, q: nat)
    requires q < |s.queues| == |s'.queues| && s'.queues == s.queues[q := s'.queues[q]]
    requires QueueWork(s'.queues[q]) + 1 == QueueWork(s.queues[q]) && Sum(s'.tasks, TaskWork) == Sum(s.tasks, TaskWork)
    ensures Work(s') + 1 == Work(s)
  {
    hide QueueWork;
    SumUpdate(s.queues, q, s'.queues[q], QueueWork);
  }

  /** Every step of a device takes one unit of work away. */
  lemma DeviceStepWorks(s: BState, e: BEvent)
    requires Enabled(s, e) && DeviceStep(e)
    ensures Work(Step(s, e)) + 1 == Work(s)
  {
    hide QueueWork, Drained;
    var s' := Step(s, e);
    match e
    case Publish(t) => SumUpdate(s.tasks, t, s'.tasks[t], TaskWork);
    case Finish(t) => SumUpdate(s.tasks, t, s'.tasks[t], TaskWork);
    case Observe(q, i) =>
      SeenWork(s.queues[q], i);
      QueueDown(s, s', q);
    case BarrierDone(q) =>
      PopWork(s.queues[q]);
      QueueDown(s, s', q);
    case Start(q) =>
      var t := s.queues[q][0].task;
      PopWork(s.queues[q]);
      SumUpdate(s.tasks, t, s'.tasks[t], TaskWork);
      QueueDown(s, s', q);
    case _ =>
  }

  /** A run of devices alone, and a state in which they cannot go on, not even by looking in order. */
  ghost predicate DeviceRun(s: BState, es: seq<BEvent>) {
    Possible(s, es) && forall i :: 0 <= i < |es| ==> DeviceStep(es[i])
  }

  ghost predicate Settled(s: BState) {
    forall e :: NextStep(e) ==> !Enabled(s, e)
  }

  /** No run of devices is longer than the work there is. */
  lemma {:induction false} DeviceRunWorks(s: BState, es: seq<BEvent>)
    requires DeviceRun(s, es)
    ensures Work(Exec(s, es)) + |es| == Work(s)
    decreases |es|
  {
    hide Work, Step, Enabled;
    if |es| > 0 {
      DeviceStepWorks(s, es[0]);
      assert forall i :: 0 <= i < |es[1..]| ==> es[1..][i] == es[i + 1];
      DeviceRunWorks(Step(s, es[0]), es[1..]);
    }
  }

  /** So devices left to themselves settle. */
  lemma {:induction false} RunToEnd(s: BState) returns (es: seq<BEvent>)
    ensures DeviceRun(s, es) && Settled(Exec(s, es))
    decreases Work(s)
  {
    hide Work, Step, Enabled;
    es := [];
    if e :| NextStep(e) && Enabled(s, e) {
      DeviceStepWorks(s, e);
      var rest := RunToEnd(Step(s, e));
      es := [e] + rest;
      assert es[1..] == rest;
    }
  }
}
