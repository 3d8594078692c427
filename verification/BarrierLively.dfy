/** Slots and signals over the steps of the barrier-packet scheduler. */
module BarrierLively {
  import opened TaskStates
  import opened Bags
  import opened BarrierMode
  import opened BarrierInvariant
  import opened BarrierSteps
  import opened BarrierQueues
  import opened BarrierDispatch
  import opened BarrierBatch
  import opened BarrierSafety
  import opened BarrierProgress

  // ---------------------------------------------------------------- slots over the steps

  lemma {:induction false} SlotsOfBarriers(queue: seq<Packet>, more: seq<Packet>)
    requires forall i :: 0 <= i < |more| ==> more[i].Barrier?
    ensures SlotsOf(queue + more) == SlotsOf(queue)
    decreases |more|
  {
    if |more| == 0 {
      assert queue + more == queue;
    } else {
      var n := |more| - 1;
      SlotsOfBarriers(queue, more[..n]);
      assert queue + more == (queue + more[..n]) + [more[n]];
      TotalAppend(queue + more[..n], more[n], SlotOf);
    }
  }

  lemma SlotsOfDispatch(queue: seq<Packet>, sigs: seq<nat>, t: nat)
    ensures SlotsOf(queue + DispatchPackets(sigs, t)) == SlotsOf(queue) + multiset{t}
  {
    OnlyLastIsSlot(sigs, t);
    var packets := DispatchPackets(sigs, t);
    var n := |packets| - 1;
    SlotsOfBarriers(queue, packets[..n]);
    assert queue + packets == (queue + packets[..n]) + [packets[n]];
    TotalAppend(queue + packets[..n], packets[n], SlotOf);
  }

  /** Nothing about slots changes. */
  lemma SlotsSame(s: BState, s': BState)
    requires SlotsOnce(s) && Total(s'.queues, SlotsOf) == Total(s.queues, SlotsOf)
    requires forall t: nat :: WaitsToStart(s'.tasks, t) == WaitsToStart(s.tasks, t)
    ensures SlotsOnce(s')
  {
  }

  /** One queue changes, but not its slots. */
  lemma QueueSlotsSame(s: BState, s': BState, q: nat)
    requires SlotsOnce(s) && q < |s.queues| == |s'.queues| && s'.queues == s.queues[q := s'.queues[q]]
    requires SlotsOf(s'.queues[q]) == SlotsOf(s.queues[q])
    requires forall t: nat :: WaitsToStart(s'.tasks, t) == WaitsToStart(s.tasks, t)
    ensures SlotsOnce(s')
  {
    hide SlotsOf, WaitsToStart;
    TotalSame(s.queues, q, s'.queues[q], SlotsOf);
  }

  lemma DispatchTotal(s: BState, t: nat, q: nat)
    requires Dispatches(s, t, q)
    ensures Total(DispatchNow(s, t, q).queues, SlotsOf) == Total(s.queues, SlotsOf) + multiset{t}
  {
    var s' := DispatchNow(s, t, q);
    var sigs := SignalsOf(s.tasks, Unexecuted(s.tasks, s.tasks[t].preds));
    SlotsOfDispatch(s.queues[q], sigs, t);
    hide SlotsOf, DispatchPackets, Unexecuted, SignalsOf;
    TotalGain(s.queues, q, s'.queues[q], SlotsOf, multiset{t});
  }

  lemma DispatchWaits(s: BState, t: nat, q: nat, u: nat)
    requires Tasks(s) && Dispatches(s, t, q)
    ensures !WaitsToStart(s.tasks, t)
    ensures WaitsToStart(DispatchNow(s, t, q).tasks, u) == (WaitsToStart(s.tasks, u) || u == t)
  {
    assert TaskOk(s, t);
    hide Tasks, Unexecuted, SignalsOf;
  }

  lemma DispatchSlots(s: BState, t: nat, q: nat)
    requires SlotsOnce(s) && Tasks(s) && Dispatches(s, t, q)
    ensures SlotsOnce(DispatchNow(s, t, q))
  {
    hide SlotsOf, Tasks, DispatchNow, WaitsToStart;
    DispatchTotal(s, t, q);
    DispatchWaits(s, t, q, t);
    forall u: nat
      ensures WaitsToStart(DispatchNow(s, t, q).tasks, u) == (WaitsToStart(s.tasks, u) || u == t)
    {
      DispatchWaits(s, t, q, u);
    }
  }

  lemma StartTotal(s: BState, q: nat)
    requires CanStart(s, q)
    ensures Total(s.queues, SlotsOf) == Total(DoStart(s, q).queues, SlotsOf) + multiset{s.queues[q][0].task}
  {
    var s', t := DoStart(s, q), s.queues[q][0].task;
    TotalTail(s.queues[q], SlotOf);
    assert SlotsOf(s.queues[q]) == SlotsOf(s'.queues[q]) + multiset{t};
    hide SlotsOf;
    TotalGain(s'.queues, q, s.queues[q], SlotsOf, multiset{t});
    assert s'.queues[q := s.queues[q]] == s.queues;
  }

  lemma StartSlots(s: BState, q: nat)
    requires SlotsOnce(s) && CanStart(s, q)
    ensures SlotsOnce(DoStart(s, q)) && WaitsToStart(s.tasks, s.queues[q][0].task)
  {
    hide SlotsOf;
    var s', t := DoStart(s, q), s.queues[q][0].task;
    StartTotal(s, q);
    assert Total(s.queues, SlotsOf)[t] >= 1;
    forall u: nat
      ensures WaitsToStart(s'.tasks, u) == (WaitsToStart(s.tasks, u) && u != t)
    {
    }
  }

  lemma ObserveSlots(s: BState, q: nat, i: nat)
    requires SlotsOnce(s) && CanObserve(s, q, i)
    ensures SlotsOnce(DoObserve(s, q, i))
  {
    var queue, queue' := s.queues[q], DoObserve(s, q, i).queues[q];
    assert queue' == queue[0 := queue'[0]];
    TotalSame(queue, 0, queue'[0], SlotOf);
    QueueSlotsSame(s, DoObserve(s, q, i), q);
  }

  lemma BarrierDoneSlots(s: BState, q: nat)
    requires SlotsOnce(s) && CanFinishBarrier(s, q)
    ensures SlotsOnce(DoFinishBarrier(s, q))
  {
    TotalTail(s.queues[q], SlotOf);
    QueueSlotsSame(s, DoFinishBarrier(s, q), q);
  }

  lemma EnqueueSlots(s: BState, q: nat)
    requires SlotsOnce(s) && CanEnqueue(s, q)
    ensures SlotsOnce(DoEnqueue(s, q))
  {
    var packets := BarrierPackets(SignalsOf(s.tasks, s.batch.sinks), true);
    BarrierPacketsCover(SignalsOf(s.tasks, s.batch.sinks), true);
    SlotsOfBarriers(s.queues[q], packets);
    QueueSlotsSame(s, DoEnqueue(s, q), q);
  }

  /** The events that leave queues, and who waits to start, alone. */
  predicate Aside(e: BEvent) {
    e.Create? || e.Peek? || e.Publish? || e.Finish? || e.Seal? || e.MarkExecuted? || e.Reclaim? || e.EndBatch?
  }

  lemma AsideWaits(s: BState, e: BEvent, t: nat)
    requires Tasks(s) && BatchOk(s) && InFlight(s) && Enabled(s, e) && Aside(e)
    ensures WaitsToStart(Step(s, e).tasks, t) == WaitsToStart(s.tasks, t)
  {
    if e.MarkExecuted? || e.Reclaim? {
      MemberOwns(s);
      assert TaskOk(s, s.batch.members[s.batch.i]);
    }
    hide InFlight, BatchOk, Tasks;
  }

  lemma AsideSlots(s: BState, e: BEvent)
    requires SlotsOnce(s) && Tasks(s) && BatchOk(s) && InFlight(s) && Enabled(s, e) && Aside(e)
    ensures SlotsOnce(Step(s, e))
  {
    hide SlotsOnce, WaitsToStart, InFlight, BatchOk, Tasks;
    forall t: nat
      ensures WaitsToStart(Step(s, e).tasks, t) == WaitsToStart(s.tasks, t)
    {
      AsideWaits(s, e, t);
    }
    SlotsSame(s, Step(s, e));
  }

  lemma ParkSlots(s: BState, t: nat, q: nat, segmentFree: bool)
    requires SlotsOnce(s) && CanTry(s, t, q) && !Goes(s, t, segmentFree)
    ensures SlotsOnce(DoTry(s, t, q, segmentFree))
  {
    hide SlotsOnce;
    forall u: nat
      ensures WaitsToStart(DoTry(s, t, q, segmentFree).tasks, u) == WaitsToStart(s.tasks, u)
    {
    }
    SlotsSame(s, DoTry(s, t, q, segmentFree));
  }

  lemma StepSlots(s: BState, e: BEvent)
    requires Inv(s) && SlotsOnce(s) && Enabled(s, e)
    ensures SlotsOnce(Step(s, e))
  {
    hide Tasks, SignalPool, SignalValues, InFlight, Safe, Queues, Sinks, BatchOk, Peeks, CreatedOk, SlotsOnce,
      WaitsToStart;
    match e
    case TryDispatch(t, q, free) =>
      if Goes(s, t, free) {
        DispatchSlots(s, t, q);
      } else {
        ParkSlots(s, t, q, free);
      }
    case Observe(q, i) => ObserveSlots(s, q, i);
    case BarrierDone(q) => BarrierDoneSlots(s, q);
    case Start(q) => StartSlots(s, q);
    case EnqueueBatch(q) => EnqueueSlots(s, q);
    case _ => AsideSlots(s, e);
  }

  // ---------------------------------------------------------------- signals over the steps

  /** A row of barriers waits for what was asked for and nothing else. */
  lemma {:induction false} BarrierPacketsOnly(sigs: seq<nat>, notify: bool)
    ensures forall g :: Waits(BarrierPackets(sigs, notify), g) ==> g in sigs
    decreases |sigs|
  {
    var packets := BarrierPackets(sigs, notify);
    if |sigs| > MAX_DEPS {
      var rest := BarrierPackets(sigs[MAX_DEPS..], notify);
      BarrierPacketsOnly(sigs[MAX_DEPS..], notify);
      forall g | Waits(packets, g)
        ensures g in sigs
      {
        var j :| 0 <= j < |packets| && packets[j].Barrier? && g in packets[j].waiting;
        if j > 0 {
          assert packets[j] == rest[j - 1];
          assert Waits(rest, g);
        }
      }
    }
  }

  lemma RowBelow(sigs: seq<nat>, notify: bool, bound: nat)
    requires forall g :: g in sigs ==> g < bound
    ensures BarriersExist(bound, BarrierPackets(sigs, notify))
  {
    var packets := BarrierPackets(sigs, notify);
    BarrierPacketsOnly(sigs, notify);
    forall i, k | 0 <= i < |packets| && packets[i].Barrier? && 0 <= k < |packets[i].waiting|
      ensures packets[i].waiting[k] < bound
    {
      assert Waits(packets, packets[i].waiting[k]);
    }
  }

  lemma BarriersAppend(bound: nat, a: seq<Packet>, b: seq<Packet>)
    requires BarriersExist(bound, a) && BarriersExist(bound, b)
    ensures BarriersExist(bound, a + b)
  {
    forall i, k | 0 <= i < |a + b| && (a + b)[i].Barrier? && 0 <= k < |(a + b)[i].waiting|
      ensures (a + b)[i].waiting[k] < bound
    {
      assert if i < |a| then (a + b)[i] == a[i] else (a + b)[i] == b[i - |a|];
    }
  }

  /** Tasks that merely move forward keep their signals. */
  lemma TaskSignalsGrow(a: seq<BTask>, b: seq<BTask>, bound: nat)
    requires TaskSignals(a, bound) && AllGrow(a, b)
    requires forall t :: 0 <= t < |b| && b[t].status.Rank() >= Ready.Rank() ==>
               (t < |a| && a[t].status.Rank() >= Ready.Rank()) || b[t].signal < bound
    ensures TaskSignals(b, bound)
  {
    forall t | 0 <= t < |b| && b[t].status.Rank() >= Ready.Rank()
      ensures b[t].signal < bound
    {
      if t < |a| { assert Grows(a[t], b[t]); }
    }
  }

  lemma SignalsOfBelow(tasks: seq<BTask>, ids: seq<nat>, bound: nat)
    requires TaskSignals(tasks, bound)
    requires forall j :: 0 <= j < |ids| ==> ids[j] < |tasks| && tasks[ids[j]].status.Rank() >= Ready.Rank()
    ensures forall g :: g in SignalsOf(tasks, ids) ==> g < bound
  {
  }

  lemma UnexecutedOwn(s: BState, t: nat, q: nat)
    requires Dispatches(s, t, q)
    ensures var ids := Unexecuted(s.tasks, s.tasks[t].preds);
            forall j :: 0 <= j < |ids| ==> ids[j] < |s.tasks| && Owns(s.tasks[ids[j]])
  {
    var ids := Unexecuted(s.tasks, s.tasks[t].preds);
    forall j | 0 <= j < |ids|
      ensures ids[j] < |s.tasks| && Owns(s.tasks[ids[j]])
    {
      var k :| 0 <= k < |s.tasks[t].preds| && s.tasks[t].preds[k] == ids[j];
    }
  }

  lemma DispatchSignals(s: BState, t: nat, q: nat, bound: nat)
    requires SignalsBelow(s, bound) && Tasks(s) && Dispatches(s, t, q) && s.freeSignals[0] < bound
    ensures SignalsBelow(DispatchNow(s, t, q), bound)
  {
    var s' := DispatchNow(s, t, q);
    var ids := Unexecuted(s.tasks, s.tasks[t].preds);
    var sigs := SignalsOf(s.tasks, ids);
    DispatchTasks(s, t, q);
    TaskSignalsGrow(s.tasks, s'.tasks, bound);
    UnexecutedOwn(s, t, q);
    SignalsOfBelow(s.tasks, ids, bound);
    assert s'.queues == s.queues[q := s.queues[q] + DispatchPackets(sigs, t)];
    DispatchPacketsBelow(bound, sigs, t);
    BarriersAppend(bound, s.queues[q], DispatchPackets(sigs, t));
    hide DispatchPackets, BarriersExist, TaskSignals, Unexecuted, SignalsOf;
  }

  lemma DispatchPacketsBelow(bound: nat, sigs: seq<nat>, t: nat)
    requires forall g :: g in sigs ==> g < bound
    ensures BarriersExist(bound, DispatchPackets(sigs, t))
  {
    if |sigs| > 0 {
      RowBelow(sigs, false, bound);
      BarriersAppend(bound, BarrierPackets(sigs, false), [Slot(t)]);
    } else {
      assert DispatchPackets(sigs, t) == [Slot(t)];
    }
  }

  lemma EnqueueSignals(s: BState, q: nat, bound: nat)
    requires SignalsBelow(s, bound) && BatchOk(s) && CanEnqueue(s, q)
    ensures SignalsBelow(DoEnqueue(s, q), bound)
  {
    var sigs := SignalsOf(s.tasks, s.batch.sinks);
    forall j | 0 <= j < |s.batch.sinks|
      ensures s.tasks[s.batch.sinks[j]].status.Rank() >= Ready.Rank()
    {
      assert s.batch.sinks[j] in ToSet(s.batch.sinks);
      assert s.batch.sinks[j] in s.batch.members;
    }
    SignalsOfBelow(s.tasks, s.batch.sinks, bound);
    RowBelow(sigs, true, bound);
    BarriersAppend(bound, s.queues[q], BarrierPackets(sigs, true));
  }

  lemma HeadSignals(s: BState, e: BEvent, bound: nat)
    requires SignalsBelow(s, bound) && Enabled(s, e) && (e.Observe? || e.BarrierDone? || e.Start?)
    ensures SignalsBelow(Step(s, e), bound)
  {
    hide Drained;
    var queue, queue' := s.queues[e.q], Step(s, e).queues[e.q];
    assert BarriersExist(bound, queue);
    assert e.Observe? ==> queue'[1..] == queue[1..];
    assert BarriersExist(bound, queue');
  }

  lemma AsideSignals(s: BState, e: BEvent, bound: nat)
    requires SignalsBelow(s, bound) && Enabled(s, e) && Aside(e) && AllGrow(s.tasks, Step(s, e).tasks)
    requires e.MarkExecuted? || e.Reclaim? ==> Owns(s.tasks[s.batch.members[s.batch.i]])
    ensures SignalsBelow(Step(s, e), bound)
  {
    hide Drained;
    TaskSignalsGrow(s.tasks, Step(s, e).tasks, bound);
  }

  lemma ParkSignals(s: BState, t: nat, q: nat, segmentFree: bool, bound: nat)
    requires SignalsBelow(s, bound) && CanTry(s, t, q) && !Goes(s, t, segmentFree)
    ensures SignalsBelow(DoTry(s, t, q, segmentFree), bound)
  {
  }

  /** The event takes a signal from the pool. */
  ghost predicate Launches(s: BState, e: BEvent)
    requires Enabled(s, e)
  {
    e.TryDispatch? && Goes(s, e.task, e.segmentFree)
  }

  lemma StepSignals(s: BState, e: BEvent, bound: nat)
    requires Inv(s) && SignalsBelow(s, bound) && Enabled(s, e)
    requires Launches(s, e) ==> s.freeSignals[0] < bound
    ensures SignalsBelow(Step(s, e), bound)
  {
    hide Tasks, SignalPool, SignalValues, InFlight, Safe, Queues, Sinks, BatchOk, Peeks, CreatedOk, SignalsBelow,
      Drained;
    match e
    case TryDispatch(t, q, free) =>
      if Goes(s, t, free) {
        DispatchSignals(s, t, q, bound);
      } else {
        ParkSignals(s, t, q, free, bound);
      }
    case EnqueueBatch(q) => EnqueueSignals(s, q, bound);
    case Observe(q, i) => HeadSignals(s, e, bound);
    case BarrierDone(q) => HeadSignals(s, e, bound);
    case Start(q) => HeadSignals(s, e, bound);
    case _ =>
      StepAdvances(s, e);
      if e.MarkExecuted? || e.Reclaim? { MemberOwns(s); }
      AsideSignals(s, e, bound);
  }

  // ---------------------------------------------------------------- over runs

  lemma FreeBelow(s: BState)
    requires SignalValues(s) && |s.freeSignals| > 0
    ensures s.freeSignals[0] < s.maxSignals
  {
  }

  lemma StepLively(s: BState, e: BEvent)
    requires Inv(s) && Lively(s) && Enabled(s, e)
    ensures Lively(Step(s, e))
  {
    if Launches(s, e) { FreeBelow(s); }
    hide Inv, SlotsOnce, SignalsBelow;
    StepSlots(s, e);
    StepSignals(s, e, s.maxSignals);
  }

  lemma {:induction false} RunLively(s: BState, es: seq<BEvent>)
    requires Inv(s) && Lively(s) && Possible(s, es)
    ensures Inv(Exec(s, es)) && Lively(Exec(s, es))
    decreases |es|
  {
    hide Inv, Lively;
    if |es| > 0 {
      StepKeeps(s, es[0]);
      StepLively(s, es[0]);
      RunLively(Step(s, es[0]), es[1..]);
    }
  }

  lemma InitialLively(s: BState)
    requires Initial(s)
    ensures Lively(s)
  {
    forall t: nat
      ensures Total(s.queues, SlotsOf)[t] == 0
    {
      forall q | 0 <= q < |s.queues| ensures t !in SlotsOf(s.queues[q]) { }
      TotalZero(s.queues, t, SlotsOf);
    }
  }

  lemma ReachedLively(s: BState, es: seq<BEvent>)
    requires Initial(s) && Possible(s, es)
    ensures Inv(Exec(s, es)) && Lively(Exec(s, es))
  {
    InitialHolds(s);
    InitialLively(s);
    RunLively(s, es);
  }
}
