/** Each event of the barrier-packet scheduler keeps the invariant. */
module BarrierSteps {
  import opened TaskStates
  import opened Bags
  import opened BarrierMode
  import opened BarrierInvariant

  // ---------------------------------------------------------------- a task that only moves forward

  ghost predicate Grows(a: BTask, b: BTask) {
    && b.preds == a.preds && b.group == a.group
    && (a.status.Rank() >= Ready.Rank() ==> b.signal == a.signal && b.andPreds == a.andPreds)
    && (a.finished ==> b.finished) && a.status.Rank() <= b.status.Rank()
  }

  ghost predicate AllGrow(a: seq<BTask>, b: seq<BTask>) {
    |a| <= |b| && forall i :: 0 <= i < |a| ==> Grows(a[i], b[i])
  }

  lemma ShieldedGrows(a: seq<BTask>, b: seq<BTask>, queue: seq<Packet>, n: nat, p: nat)
    requires AllGrow(a, b) && Shielded(a, queue, n, p)
    ensures Shielded(b, queue, n, p)
  {
    assert Grows(a[p], b[p]);
  }

  lemma QueueGrows(a: seq<BTask>, b: seq<BTask>, queue: seq<Packet>)
    requires AllGrow(a, b) && QueueOk(a, queue)
    ensures QueueOk(b, queue)
  {
    forall i | 0 <= i < |queue|
      ensures SlotOk(b, queue, i)
    {
      assert SlotOk(a, queue, i);
      if queue[i].Slot? {
        assert Grows(a[queue[i].task], b[queue[i].task]);
        forall j | 0 <= j < |b[queue[i].task].preds|
          ensures Shielded(b, queue, i, b[queue[i].task].preds[j])
        {
          ShieldedGrows(a, b, queue, i, a[queue[i].task].preds[j]);
        }
      }
    }
  }

  lemma QueuesGrow(s: BState, s': BState)
    requires Queues(s) && AllGrow(s.tasks, s'.tasks) && s'.queues == s.queues
    ensures Queues(s')
  {
    forall q | 0 <= q < |s.queues|
      ensures QueueOk(s'.tasks, s'.queues[q])
    {
      QueueGrows(s.tasks, s'.tasks, s.queues[q]);
    }
  }

  lemma ClosedGrows(a: seq<BTask>, b: seq<BTask>, members: seq<nat>, sinks: set<nat>)
    requires AllGrow(a, b) && Closed(a, members, sinks)
    ensures Closed(b, members, sinks)
  {
    forall k | 0 <= k < |members|
      ensures members[k] < |b| && b[members[k]].status.Rank() >= Ready.Rank()
      ensures CoveredIn(b, members, sinks, members[k])
    {
      assert Grows(a[members[k]], b[members[k]]);
      assert CoveredIn(a, members, sinks, members[k]);
      if members[k] !in sinks {
        var j :| 0 <= j < |members| && members[j] < |a| && members[k] in a[members[j]].andPreds;
        assert Grows(a[members[j]], b[members[j]]);
      }
    }
  }

  lemma SinksGrow(s: BState, s': BState)
    requires Sinks(s) && AllGrow(s.tasks, s'.tasks) && s'.groups == s.groups
    ensures Sinks(s')
  {
    forall g | 0 <= g < |s.groups|
      ensures Closed(s'.tasks, s'.groups[g].dispatched, s'.groups[g].sinks)
    {
      ClosedGrows(s.tasks, s'.tasks, s.groups[g].dispatched, s.groups[g].sinks);
    }
  }

  lemma BatchBarrierGrows(a: seq<BTask>, b: seq<BTask>, queue: seq<Packet>, sinks: seq<nat>, n: nat)
    requires AllGrow(a, b) && n < |queue| && BatchBarrier(a, queue, sinks, n)
    ensures BatchBarrier(b, queue, sinks, n)
  {
    forall j | 0 <= j < |sinks|
      ensures Shielded(b, queue, n + 1, sinks[j])
    {
      ShieldedGrows(a, b, queue, n + 1, sinks[j]);
    }
  }

  lemma BatchGrows(s: BState, s': BState)
    requires BatchOk(s) && AllGrow(s.tasks, s'.tasks) && s'.queues == s.queues && s'.batch == s.batch
    ensures BatchOk(s')
  {
    match s.batch
    case NoBatch =>
    case Sealed(members, sinks) => ClosedGrows(s.tasks, s'.tasks, members, ToSet(sinks));
    case Enqueued(members, sinks, q) =>
      ClosedGrows(s.tasks, s'.tasks, members, ToSet(sinks));
      var n :| 0 <= n < |s.queues[q]| && BatchBarrier(s.tasks, s.queues[q], sinks, n);
      BatchBarrierGrows(s.tasks, s'.tasks, s.queues[q], sinks, n);
    case Handling(members, i, executed) =>
      forall k | 0 <= k < |members|
        ensures Finished(s'.tasks, members[k])
      {
        assert Finished(s.tasks, members[k]);
        assert Grows(s.tasks[members[k]], s'.tasks[members[k]]);
      }
  }

  lemma PeeksGrow(s: BState, s': BState)
    requires Peeks(s) && AllGrow(s.tasks, s'.tasks) && s'.groups == s.groups && s'.peeked == s.peeked
    ensures Peeks(s')
  {
    forall t | t in s.peeked
      ensures PeekOk(s', t)
    {
      assert PeekOk(s, t);
      assert Grows(s.tasks[t], s'.tasks[t]);
    }
  }

  lemma CreatedGrows(s: BState, s': BState)
    requires CreatedOk(s) && AllGrow(s.tasks, s'.tasks) && s'.groups == s.groups
    ensures CreatedOk(s')
  {
    forall t | 0 <= t < |s.tasks|
      ensures Grows(s.tasks[t], s'.tasks[t])
    {
    }
  }

  lemma SafeGrows(a: seq<BTask>, b: seq<BTask>)
    requires Safe(a) && AllGrow(a, b)
    requires forall t, j :: 0 <= t < |b| && b[t].started && (t >= |a| || !a[t].started) && 0 <= j < |b[t].preds| ==>
               Finished(b, b[t].preds[j])
    ensures Safe(b)
  {
    forall t, j | 0 <= t < |b| && b[t].started && 0 <= j < |b[t].preds|
      ensures Finished(b, b[t].preds[j])
    {
      if t < |a| && a[t].started {
        assert Grows(a[t], b[t]);
        assert Finished(a, a[t].preds[j]);
        assert Grows(a[a[t].preds[j]], b[a[t].preds[j]]);
      }
    }
  }

  /** Everything that follows from tasks merely moving forward, with queues and groups as they are. */
  lemma GrowthKeeps(s: BState, s': BState)
    requires Inv(s) && AllGrow(s.tasks, s'.tasks) && s'.queues == s.queues && s'.groups == s.groups
    requires s'.peeked == s.peeked && s'.batch == s.batch
    ensures Queues(s') && Sinks(s') && BatchOk(s') && Peeks(s') && CreatedOk(s')
  {
    hide Tasks, SignalPool, SignalValues, InFlight, Safe, Queues, Sinks, BatchOk, Peeks, CreatedOk;
    assert Queues(s') by { QueuesGrow(s, s'); }
    assert Sinks(s') by { SinksGrow(s, s'); }
    assert BatchOk(s') by { BatchGrows(s, s'); }
    assert Peeks(s') by { PeeksGrow(s, s'); }
    assert CreatedOk(s') by { CreatedGrows(s, s'); }
  }

  // ---------------------------------------------------------------- owners of signals

  ghost predicate SameOwner(a: BTask, b: BTask) {
    Owns(b) == Owns(a) && (Owns(a) ==> b.signal == a.signal)
  }

  lemma PoolSame(s: BState, s': BState, i: nat)
    requires SignalPool(s) && i < |s.tasks| == |s'.tasks| && SameOwner(s.tasks[i], s'.tasks[i])
    requires s'.tasks == s.tasks[i := s'.tasks[i]]
    requires s'.freeSignals == s.freeSignals && s'.maxSignals == s.maxSignals
    ensures SignalPool(s')
  {
    TotalSame(s.tasks, i, s'.tasks[i], OwnedSignal);
  }

  lemma FlightSame(s: BState, s': BState, i: nat)
    requires InFlight(s) && i < |s.tasks| == |s'.tasks| && Owns(s'.tasks[i]) == Owns(s.tasks[i])
    requires s'.tasks == s.tasks[i := s'.tasks[i]]
    requires s'.groups == s.groups && BatchRest(s'.batch) == BatchRest(s.batch)
    ensures InFlight(s')
  {
    assert FlightBag(s') == FlightBag(s);
  }

  // ---------------------------------------------------------------- Publish, Finish, a failed try

  lemma OneGrows(s: BState, i: nat, b: BTask)
    requires i < |s.tasks| && Grows(s.tasks[i], b)
    ensures AllGrow(s.tasks, s.tasks[i := b])
  {
  }

  lemma PublishKeeps(s: BState, t: nat)
    requires Inv(s) && CanPublish(s, t)
    ensures Inv(DoPublish(s, t))
  {
    hide Tasks, SignalPool, SignalValues, InFlight, Safe, Queues, Sinks, BatchOk, Peeks, CreatedOk;
    var s' := DoPublish(s, t);
    OneGrows(s, t, s'.tasks[t]);
    assert Tasks(s') by { PublishTasks(s, t); }
    PoolSame(s, s', t);
    FlightSame(s, s', t);
    assert SignalValues(s') by { PublishValues(s, t); }
    SafeGrows(s.tasks, s'.tasks);
    GrowthKeeps(s, s');
  }

  lemma PublishTasks(s: BState, t: nat)
    requires Tasks(s) && CanPublish(s, t)
    ensures Tasks(DoPublish(s, t))
  {
  }

  lemma PublishValues(s: BState, t: nat)
    requires SignalValues(s) && CanPublish(s, t)
    ensures SignalValues(DoPublish(s, t))
  {
  }

  lemma FinishKeeps(s: BState, t: nat)
    requires Inv(s) && CanFinish(s, t)
    ensures Inv(DoFinish(s, t))
  {
    hide Tasks, SignalPool, SignalValues, InFlight, Safe, Queues, Sinks, BatchOk, Peeks, CreatedOk;
    var s' := DoFinish(s, t);
    OneGrows(s, t, s'.tasks[t]);
    assert Tasks(s') by { FinishTasks(s, t); }
    PoolSame(s, s', t);
    FlightSame(s, s', t);
    assert SignalValues(s') by { FinishValues(s, t); }
    SafeGrows(s.tasks, s'.tasks);
    GrowthKeeps(s, s');
  }

  lemma FinishTasks(s: BState, t: nat)
    requires Tasks(s) && CanFinish(s, t)
    ensures Tasks(DoFinish(s, t))
  {
  }

  lemma FinishValues(s: BState, t: nat)
    requires Tasks(s) && SignalPool(s) && SignalValues(s) && CanFinish(s, t)
    ensures SignalValues(DoFinish(s, t))
  {
    assert TaskOk(s, t);
    assert Owns(s.tasks[t]);
    OwnedIsNotFree(s, t);
    forall i | 0 <= i < |s.tasks| && Owns(s.tasks[i]) && i != t
      ensures s.tasks[i].signal != s.tasks[t].signal
    {
      OwnersDiffer(s, i, t);
    }
  }

  lemma ParkKeeps(s: BState, t: nat)
    requires Inv(s) && t < |s.tasks| && s.tasks[t].status.Rank() < Ready.Rank()
    ensures Inv(s.(tasks := s.tasks[t := s.tasks[t].(status := Initialized, andPreds := [])]))
  {
    var s' := s.(tasks := s.tasks[t := s.tasks[t].(status := Initialized, andPreds := [])]);
    assert TaskOk(s, t);
    OneGrows(s, t, s'.tasks[t]);
    assert Tasks(s') by { ParkTasks(s, t); }
    PoolSame(s, s', t);
    FlightSame(s, s', t);
    assert SignalValues(s') by { ParkValues(s, t); }
    assert Safe(s'.tasks) by { SafeGrows(s.tasks, s'.tasks); }
    GrowthKeeps(s, s');
  }

  lemma ParkTasks(s: BState, t: nat)
    requires Tasks(s) && t < |s.tasks| && s.tasks[t].status.Rank() < Ready.Rank()
    ensures Tasks(s.(tasks := s.tasks[t := s.tasks[t].(status := Initialized, andPreds := [])]))
  {
    assert TaskOk(s, t);
  }

  lemma ParkValues(s: BState, t: nat)
    requires SignalValues(s) && t < |s.tasks| && s.tasks[t].status.Rank() < Ready.Rank()
    ensures SignalValues(s.(tasks := s.tasks[t := s.tasks[t].(status := Initialized, andPreds := [])]))
  {
  }

  // ---------------------------------------------------------------- Create and Peek

  lemma CreateKeeps(s: BState, preds: seq<nat>, g: nat)
    requires Inv(s) && CanCreate(s, preds, g)
    ensures Inv(DoCreate(s, preds, g))
  {
    hide Tasks, SignalPool, SignalValues, InFlight, Safe, Queues, Sinks, BatchOk, Peeks, CreatedOk;
    var s' := DoCreate(s, preds, g);
    assert AllGrow(s.tasks, s'.tasks);
    assert Tasks(s') by { CreateTasks(s, preds, g); }
    assert SignalPool(s') by { CreatePool(s, preds, g); }
    assert SignalValues(s') by { CreateValues(s, preds, g); }
    assert InFlight(s') by { CreateFlight(s, preds, g); }
    assert Safe(s'.tasks) by { SafeGrows(s.tasks, s'.tasks); }
    assert Queues(s') by { QueuesGrow(s, s'); }
    assert Sinks(s') by { CreateSinks(s, preds, g); }
    assert BatchOk(s') by { BatchGrows(s, s'); }
    assert Peeks(s') by { CreatePeeks(s, preds, g); }
    assert CreatedOk(s') by { CreateCreated(s, preds, g); }
  }

  lemma CreateTasks(s: BState, preds: seq<nat>, g: nat)
    requires Tasks(s) && CanCreate(s, preds, g)
    ensures Tasks(DoCreate(s, preds, g))
  {
    var s' := DoCreate(s, preds, g);
    forall i | 0 <= i < |s'.tasks|
      ensures TaskOk(s', i)
    {
      if i < |s.tasks| { assert TaskOk(s, i); }
    }
  }

  lemma CreatePool(s: BState, preds: seq<nat>, g: nat)
    requires SignalPool(s) && CanCreate(s, preds, g)
    ensures SignalPool(DoCreate(s, preds, g))
  {
    TotalAppendNothing(s.tasks, DoCreate(s, preds, g).tasks[|s.tasks|], OwnedSignal);
  }

  lemma CreateValues(s: BState, preds: seq<nat>, g: nat)
    requires SignalValues(s) && CanCreate(s, preds, g)
    ensures SignalValues(DoCreate(s, preds, g))
  {
  }

  lemma CreateFlight(s: BState, preds: seq<nat>, g: nat)
    requires InFlight(s) && CanCreate(s, preds, g)
    ensures InFlight(DoCreate(s, preds, g))
  {
    TotalSame(s.groups, g, DoCreate(s, preds, g).groups[g], DispatchedOf);
    assert FlightBag(DoCreate(s, preds, g)) == FlightBag(s);
  }

  lemma CreateSinks(s: BState, preds: seq<nat>, g: nat)
    requires Sinks(s) && CanCreate(s, preds, g)
    ensures Sinks(DoCreate(s, preds, g))
  {
    var s' := DoCreate(s, preds, g);
    forall h | 0 <= h < |s.groups|
      ensures Closed(s'.tasks, s'.groups[h].dispatched, s'.groups[h].sinks)
    {
      ClosedGrows(s.tasks, s'.tasks, s.groups[h].dispatched, s.groups[h].sinks);
    }
  }

  lemma CreatePeeks(s: BState, preds: seq<nat>, g: nat)
    requires Peeks(s) && CanCreate(s, preds, g)
    ensures Peeks(DoCreate(s, preds, g))
  {
    forall t | t in s.peeked
      ensures PeekOk(DoCreate(s, preds, g), t)
    {
      assert PeekOk(s, t);
    }
  }

  lemma CreateCreated(s: BState, preds: seq<nat>, g: nat)
    requires CreatedOk(s) && CanCreate(s, preds, g)
    ensures CreatedOk(DoCreate(s, preds, g))
  {
  }

  lemma PeekKeeps(s: BState, g: nat)
    requires Inv(s) && CanPeek(s, g)
    requires forall k :: 0 <= k < |s.groups[g].created| ==> s.groups[g].created[k] < |s.tasks|
    ensures Inv(s.(peeked := s.peeked + {s.groups[g].created[0]}))
  {
    hide Tasks, SignalPool, SignalValues, InFlight, Safe, Queues, Sinks, BatchOk, Peeks, CreatedOk;
    var s' := s.(peeked := s.peeked + {s.groups[g].created[0]});
    assert Peeks(s') by { PeekPeeks(s, g); }
    PeekRest(s, s');
  }

  lemma PeekPeeks(s: BState, g: nat)
    requires Peeks(s) && CreatedOk(s) && CanPeek(s, g)
    ensures Peeks(s.(peeked := s.peeked + {s.groups[g].created[0]}))
  {
    forall t | t in s.peeked
      ensures PeekOk(s.(peeked := s.peeked + {s.groups[g].created[0]}), t)
    {
      assert PeekOk(s, t);
    }
  }

  lemma PeekRest(s: BState, s': BState)
    requires Inv(s) && s' == s.(peeked := s'.peeked) && Peeks(s')
    ensures Inv(s')
  {
    hide Tasks, SignalPool, SignalValues, InFlight, Safe, Queues, Sinks, BatchOk, Peeks, CreatedOk;
    assert AllGrow(s.tasks, s'.tasks);
    assert Queues(s') by { QueuesGrow(s, s'); }
    assert Sinks(s') by { SinksGrow(s, s'); }
    assert BatchOk(s') by { BatchGrows(s, s'); }
    assert CreatedOk(s') by { CreatedGrows(s, s'); }
    PeekSame(s, s');
  }

  lemma PeekSame(s: BState, s': BState)
    requires Tasks(s) && SignalPool(s) && SignalValues(s) && InFlight(s) && Safe(s.tasks)
    requires s' == s.(peeked := s'.peeked)
    ensures Tasks(s') && SignalPool(s') && SignalValues(s') && InFlight(s') && Safe(s'.tasks)
  {
    assert FlightBag(s') == FlightBag(s);
    forall i | 0 <= i < |s.tasks| ensures TaskOk(s', i) { assert TaskOk(s, i); }
  }
}
