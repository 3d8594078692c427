/**
  The barrier-packet scheduler (`tryDispatchBarrierPacket`, `enqueue_barrier_async`,
  `handle_signal_barrier_pkt`): tasks of unordered groups are put on their queues before their predecessors
  finish, behind barrier-AND packets on the predecessors' signals.  Every task has one packet, as on a GPU, and
  at most one batch waits for its barrier at a time.
 */
module BarrierMode {
  import opened Bags
  import opened TaskStates

  const MAX_DEPS: nat := 5

  /**
    A packet that has not been processed.  A barrier lists the signals it has still to see at 0; one with the
    barrier bit is not looked at before everything launched earlier from its queue has finished.
   */
  datatype Packet = Barrier(waiting: seq<nat>, bit: bool, notify: bool) | Slot(task: nat)

  /** A task, with the queue from which its kernel was launched. */
  datatype BTask = BTask(
    preds: seq<nat>, group: nat, status: Status, signal: nat, andPreds: seq<nat>, started: bool, finished: bool,
    queue: nat)

  /** `TaskgroupImpl`: created_tasks_, dispatched_tasks_ and dispatched_sink_tasks_. */
  datatype Group = Group(created: seq<nat>, dispatched: seq<nat>, sinks: set<nat>)

  /**
    The dispatched tasks taken off a group to be completed together: taken, behind a barrier on queue q, or in
    the handler, whose loop is at position i and has or has not marked members[i] EXECUTED.
   */
  datatype Batch =
    | NoBatch
    | Sealed(members: seq<nat>, sinks: seq<nat>)
    | Enqueued(members: seq<nat>, sinks: seq<nat>, q: nat)
    | Handling(members: seq<nat>, i: nat, executed: bool)

  datatype BState = BState(
    maxSignals: nat, tasks: seq<BTask>, queues: seq<seq<Packet>>, groups: seq<Group>,
    freeSignals: seq<nat>, signalValue: seq<int>, peeked: set<nat>, batch: Batch)

  datatype BEvent =
    | Create(preds: seq<nat>, group: nat)
    | Peek(group: nat)
    | TryDispatch(task: nat, q: nat, segmentFree: bool)
    | Publish(task: nat)
    | Observe(q: nat, i: nat)
    | BarrierDone(q: nat)
    | Start(q: nat)
    | Finish(task: nat)
    | Seal(group: nat, sinks: seq<nat>)
    | EnqueueBatch(q: nat)
    | MarkExecuted
    | Reclaim
    | EndBatch

  // ---------------------------------------------------------------- enqueue_barrier_async

  /** At most five dependencies a packet; only the last packet has the barrier bit and signals completion. */
  function BarrierPackets(sigs: seq<nat>, notify: bool): seq<Packet>
    decreases |sigs|
  {
    if |sigs| <= MAX_DEPS then [Barrier(sigs, true, notify)]
    else [Barrier(sigs[..MAX_DEPS], false, false)] + BarrierPackets(sigs[MAX_DEPS..], notify)
  }

  function SignalsOf(tasks: seq<BTask>, ids: seq<nat>): (r: seq<nat>)
    requires forall j :: 0 <= j < |ids| ==> ids[j] < |tasks|
    ensures |r| == |ids| && forall j :: 0 <= j < |ids| ==> r[j] == tasks[ids[j]].signal
  {
    seq(|ids|, j requires 0 <= j < |ids| => tasks[ids[j]].signal)
  }

  // ---------------------------------------------------------------- tryDispatchBarrierPacket

  /** The predecessors that have not executed, which become and_predecessors_. */
  function Unexecuted(tasks: seq<BTask>, preds: seq<nat>): (r: seq<nat>)
    requires forall j :: 0 <= j < |preds| ==> preds[j] < |tasks|
    ensures forall j :: 0 <= j < |r| ==> r[j] in preds && tasks[r[j]].status.Rank() < Executed.Rank()
    ensures forall j :: 0 <= j < |preds| && tasks[preds[j]].status.Rank() < Executed.Rank() ==> preds[j] in r
  {
    if |preds| == 0 then []
    else if tasks[preds[0]].status.Rank() < Executed.Rank() then [preds[0]] + Unexecuted(tasks, preds[1..])
    else Unexecuted(tasks, preds[1..])
  }

  predicate PredsDispatched(tasks: seq<BTask>, preds: seq<nat>)
    requires forall j :: 0 <= j < |preds| ==> preds[j] < |tasks|
  {
    forall j :: 0 <= j < |preds| ==> tasks[preds[j]].status.Rank() >= Dispatched.Rank()
  }

  ghost predicate CanTry(s: BState, t: nat, q: nat) {
    && t in s.peeked && t < |s.tasks| && q < |s.queues| && s.tasks[t].group < |s.groups|
    && (forall j :: 0 <= j < |s.tasks[t].preds| ==> s.tasks[t].preds[j] < |s.tasks|)
    && (s.tasks[t].status.Rank() < Ready.Rank() ==> |s.groups[s.tasks[t].group].created| > 0)
    && forall j :: 0 <= j < |s.freeSignals| ==> s.freeSignals[j] < |s.signalValue|
  }

  function ToSet(ids: seq<nat>): set<nat> {
    set i | i in ids
  }

  /** The group after one of its tasks was dispatched behind a barrier on andPreds: it is the new sink. */
  function Record(g: Group, t: nat, andPreds: seq<nat>): Group
    requires |g.created| > 0
  {
    Group(g.created[1..], g.dispatched + [t], g.sinks + {t} - ToSet(andPreds))
  }

  /** The packets of a dispatch: a barrier if somebody has to be waited for, then the task's own slot. */
  function DispatchPackets(sigs: seq<nat>, t: nat): seq<Packet> {
    (if |sigs| > 0 then BarrierPackets(sigs, false) else []) + [Slot(t)]
  }

  ghost function DispatchNow(s: BState, t: nat, q: nat): BState
    requires CanTry(s, t, q) && |s.freeSignals| > 0 && |s.groups[s.tasks[t].group].created| > 0
  {
    var task := s.tasks[t];
    var andPreds := Unexecuted(s.tasks, task.preds);
    var sig := s.freeSignals[0];
    s.(freeSignals := s.freeSignals[1..],
       signalValue := s.signalValue[sig := s.signalValue[sig] + 1],
       tasks := s.tasks[t := task.(status := Ready, signal := sig, andPreds := andPreds)],
       groups := s.groups[task.group := Record(s.groups[task.group], t, andPreds)],
       queues := s.queues[q := s.queues[q] + DispatchPackets(SignalsOf(s.tasks, andPreds), t)])
  }

  /** Whether a try goes through. */
  ghost predicate Goes(s: BState, t: nat, segmentFree: bool)
    requires t < |s.tasks| && forall j :: 0 <= j < |s.tasks[t].preds| ==> s.tasks[t].preds[j] < |s.tasks|
  {
    && s.tasks[t].status.Rank() < Ready.Rank() && PredsDispatched(s.tasks, s.tasks[t].preds)
    && |s.freeSignals| > 0 && segmentFree
  }

  ghost function DoTry(s: BState, t: nat, q: nat, segmentFree: bool): BState
    requires CanTry(s, t, q)
  {
    if s.tasks[t].status.Rank() >= Ready.Rank() then s
    else if Goes(s, t, segmentFree) then DispatchNow(s, t, q)
    else s.(tasks := s.tasks[t := s.tasks[t].(status := Initialized, andPreds := [])])
  }

  // ---------------------------------------------------------------- the other steps

  ghost predicate CanCreate(s: BState, preds: seq<nat>, g: nat) {
    g < |s.groups| && forall j :: 0 <= j < |preds| ==> preds[j] < |s.tasks|
  }

  ghost function DoCreate(s: BState, preds: seq<nat>, g: nat): BState
    requires CanCreate(s, preds, g)
  {
    s.(tasks := s.tasks + [BTask(preds, g, Uninitialized, 0, [], false, false, 0)],
       groups := s.groups[g := s.groups[g].(created := s.groups[g].created + [|s.tasks|])])
  }

  ghost predicate CanPeek(s: BState, g: nat) {
    g < |s.groups| && |s.groups[g].created| > 0
  }

  ghost predicate CanPublish(s: BState, t: nat) {
    t < |s.tasks| && s.tasks[t].status == Ready
  }

  ghost function DoPublish(s: BState, t: nat): BState
    requires CanPublish(s, t)
  {
    s.(tasks := s.tasks[t := s.tasks[t].(status := Dispatched)])
  }

  /** Everything launched from the queue has finished. */
  ghost predicate Drained(tasks: seq<BTask>, q: nat) {
    forall t :: 0 <= t < |tasks| && tasks[t].started && tasks[t].queue == q ==> tasks[t].finished
  }

  /** The head of the queue is a barrier that the packet processor may look at. */
  ghost predicate Looks(s: BState, q: nat) {
    && q < |s.queues| && |s.queues[q]| > 0 && s.queues[q][0].Barrier?
    && (s.queues[q][0].bit ==> Drained(s.tasks, q))
  }

  /** The packet processor sees one of the signals of the barrier at the head at 0, in any order. */
  ghost predicate CanObserve(s: BState, q: nat, i: nat) {
    && Looks(s, q)
    && i < |s.queues[q][0].waiting| && s.queues[q][0].waiting[i] < |s.signalValue|
    && s.signalValue[s.queues[q][0].waiting[i]] == 0
  }

  ghost function DoObserve(s: BState, q: nat, i: nat): BState
    requires CanObserve(s, q, i)
  {
    var b := s.queues[q][0];
    s.(queues := s.queues[q := [b.(waiting := b.waiting[..i] + b.waiting[i + 1..])] + s.queues[q][1..]])
  }

  /** A barrier that has seen all its signals completes; the batch's barrier sets off the handler. */
  ghost predicate CanFinishBarrier(s: BState, q: nat) {
    && Looks(s, q) && s.queues[q][0].waiting == []
    && (s.queues[q][0].notify ==> s.batch.Enqueued?)
  }

  ghost function DoFinishBarrier(s: BState, q: nat): BState
    requires CanFinishBarrier(s, q)
  {
    s.(queues := s.queues[q := s.queues[q][1..]],
       batch := if s.queues[q][0].notify then Handling(s.batch.members, 0, false) else s.batch)
  }

  /** The processor launches the task whose packet is at the head and published. */
  ghost predicate CanStart(s: BState, q: nat) {
    && q < |s.queues| && |s.queues[q]| > 0 && s.queues[q][0].Slot? && s.queues[q][0].task < |s.tasks|
    && s.tasks[s.queues[q][0].task].status.Rank() >= Dispatched.Rank()
  }

  ghost function DoStart(s: BState, q: nat): BState
    requires CanStart(s, q)
  {
    var t := s.queues[q][0].task;
    s.(queues := s.queues[q := s.queues[q][1..]], tasks := s.tasks[t := s.tasks[t].(started := true, queue := q)])
  }

  ghost predicate CanFinish(s: BState, t: nat) {
    t < |s.tasks| && s.tasks[t].started && !s.tasks[t].finished && s.tasks[t].signal < |s.signalValue|
  }

  ghost function DoFinish(s: BState, t: nat): BState
    requires CanFinish(s, t)
  {
    var g := s.tasks[t].signal;
    s.(tasks := s.tasks[t := s.tasks[t].(finished := true)], signalValue := s.signalValue[g := s.signalValue[g] - 1])
  }

  /** Take the group's dispatched tasks off it, with its sinks in some order. */
  ghost predicate CanSeal(s: BState, g: nat, sinks: seq<nat>) {
    g < |s.groups| && s.batch == NoBatch && |sinks| > 0 && ToSet(sinks) == s.groups[g].sinks
  }

  ghost function DoSeal(s: BState, g: nat, sinks: seq<nat>): BState
    requires CanSeal(s, g, sinks)
  {
    s.(groups := s.groups[g := s.groups[g].(dispatched := [], sinks := {})],
       batch := Sealed(s.groups[g].dispatched, sinks))
  }

  ghost predicate CanEnqueue(s: BState, q: nat) {
    && q < |s.queues| && s.batch.Sealed?
    && forall j :: 0 <= j < |s.batch.sinks| ==> s.batch.sinks[j] < |s.tasks|
  }

  ghost function DoEnqueue(s: BState, q: nat): BState
    requires CanEnqueue(s, q)
  {
    s.(queues := s.queues[q := s.queues[q] + BarrierPackets(SignalsOf(s.tasks, s.batch.sinks), true)],
       batch := Enqueued(s.batch.members, s.batch.sinks, q))
  }

  ghost predicate CanMark(s: BState) {
    && s.batch.Handling? && !s.batch.executed && s.batch.i < |s.batch.members|
    && s.batch.members[s.batch.i] < |s.tasks|
  }

  ghost function DoMark(s: BState): BState
    requires CanMark(s)
  {
    var m := s.batch.members[s.batch.i];
    s.(tasks := s.tasks[m := s.tasks[m].(status := Executed)], batch := s.batch.(executed := true))
  }

  ghost predicate CanReclaim(s: BState) {
    && s.batch.Handling? && s.batch.executed && s.batch.i < |s.batch.members|
    && s.batch.members[s.batch.i] < |s.tasks|
  }

  ghost function DoReclaim(s: BState): BState
    requires CanReclaim(s)
  {
    var m := s.batch.members[s.batch.i];
    s.(tasks := s.tasks[m := s.tasks[m].(status := Completed)],
       freeSignals := s.freeSignals + [s.tasks[m].signal],
       batch := Handling(s.batch.members, s.batch.i + 1, false))
  }

  ghost predicate Enabled(s: BState, e: BEvent) {
    match e
    case Create(preds, g) => CanCreate(s, preds, g)
    case Peek(g) => CanPeek(s, g)
    case TryDispatch(t, q, free) => CanTry(s, t, q)
    case Publish(t) => CanPublish(s, t)
    case Observe(q, i) => CanObserve(s, q, i)
    case BarrierDone(q) => CanFinishBarrier(s, q)
    case Start(q) => CanStart(s, q)
    case Finish(t) => CanFinish(s, t)
    case Seal(g, sinks) => CanSeal(s, g, sinks)
    case EnqueueBatch(q) => CanEnqueue(s, q)
    case MarkExecuted => CanMark(s)
    case Reclaim => CanReclaim(s)
    case EndBatch => s.batch.Handling? && s.batch.i == |s.batch.members|
  }

  ghost function Step(s: BState, e: BEvent): BState
    requires Enabled(s, e)
  {
    match e
    case Create(preds, g) => DoCreate(s, preds, g)
    case Peek(g) => s.(peeked := s.peeked + {s.groups[g].created[0]})
    case TryDispatch(t, q, free) => DoTry(s, t, q, free)
    case Publish(t) => DoPublish(s, t)
    case Observe(q, i) => DoObserve(s, q, i)
    case BarrierDone(q) => DoFinishBarrier(s, q)
    case Start(q) => DoStart(s, q)
    case Finish(t) => DoFinish(s, t)
    case Seal(g, sinks) => DoSeal(s, g, sinks)
    case EnqueueBatch(q) => DoEnqueue(s, q)
    case MarkExecuted => DoMark(s)
    case Reclaim => DoReclaim(s)
    case EndBatch => s.(batch := NoBatch)
  }

  ghost predicate Initial(s: BState) {
    && s.tasks == [] && s.peeked == {} && s.batch == NoBatch
    && (forall q :: 0 <= q < |s.queues| ==> s.queues[q] == [])
    && (forall g :: 0 <= g < |s.groups| ==> s.groups[g] == Group([], [], {}))
    && s.freeSignals == Ids(s.maxSignals) && |s.signalValue| == s.maxSignals
    && forall g :: 0 <= g < s.maxSignals ==> s.signalValue[g] == 0
  }

  ghost predicate Possible(s: BState, es: seq<BEvent>)
    decreases |es|
  {
    |es| > 0 ==> Enabled(s, es[0]) && Possible(Step(s, es[0]), es[1..])
  }

  ghost function Exec(s: BState, es: seq<BEvent>): BState
    requires Possible(s, es)
    decreases |es|
  {
    if |es| == 0 then s else Exec(Step(s, es[0]), es[1..])
  }
}
