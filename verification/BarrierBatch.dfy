/** What the packet processors and the completion of a batch do keeps the invariant. */
module BarrierBatch {
  import opened TaskStates
  import opened Bags
  import opened BarrierMode
  import opened BarrierInvariant
  import opened BarrierSteps
  import opened BarrierQueues
  import opened BarrierDispatch

  // ---------------------------------------------------------------- everything that does not mention queues

  ghost predicate Calm(s: BState) {
    && Tasks(s) && SignalPool(s) && SignalValues(s) && InFlight(s) && Safe(s.tasks)
    && Sinks(s) && Peeks(s) && CreatedOk(s)
  }

  /** Queues and a batch that still has to complete do not matter to the rest. */
  lemma CalmStays(s: BState, s': BState)
    requires Calm(s) && s' == s.(queues := s'.queues, batch := s'.batch) && BatchRest(s'.batch) == BatchRest(s.batch)
    ensures Calm(s')
  {
    assert FlightBag(s') == FlightBag(s);
    forall i | 0 <= i < |s.tasks| ensures TaskOk(s', i) { assert TaskOk(s, i); }
    forall t | t in s.peeked ensures PeekOk(s', t) { assert PeekOk(s, t); }
  }

  lemma CalmOf(s: BState)
    requires Inv(s)
    ensures Calm(s) && Queues(s) && BatchOk(s)
  {
  }

  lemma InvOf(s: BState)
    requires Calm(s) && Queues(s) && BatchOk(s)
    ensures Inv(s)
  {
  }

  // ---------------------------------------------------------------- Observe

  lemma BatchBarrierSeen(s: BState, queue: seq<Packet>, i: nat, sinks: seq<nat>, n: nat)
    requires Tasks(s) && SignalValues(s) && CanSee(queue, i) && queue[0].waiting[i] < |s.signalValue|
    requires s.signalValue[queue[0].waiting[i]] == 0 && n < |queue| && BatchBarrier(s.tasks, queue, sinks, n)
    ensures BatchBarrier(s.tasks, Seen(queue, i), sinks, n)
  {
    hide Tasks, SignalValues, Shielded;
    var queue' := Seen(queue, i);
    assert forall k :: 0 <= k < |queue| ==> queue'[k].Barrier? == queue[k].Barrier?;
    assert forall k :: 0 <= k < |queue| && queue[k].Barrier? ==> queue'[k].notify == queue[k].notify;
    QuietSlices(queue, queue', n);
    forall j | 0 <= j < |sinks|
      ensures Shielded(s.tasks, queue', n + 1, sinks[j])
    {
      ShieldedSeen(s, queue, i, n + 1, sinks[j]);
    }
  }

  /** Two queues whose barriers tell the batch at the same places. */
  lemma QuietSlices(a: seq<Packet>, b: seq<Packet>, n: nat)
    requires |a| == |b| && n < |a| && forall k :: 0 <= k < |a| ==> a[k].Barrier? == b[k].Barrier?
    requires forall k :: 0 <= k < |a| && a[k].Barrier? ==> a[k].notify == b[k].notify
    requires Quiet(a[..n]) && Quiet(a[n + 1..])
    ensures Quiet(b[..n]) && Quiet(b[n + 1..])
  {
    forall k | 0 <= k < n && b[k].Barrier?
      ensures !b[k].notify
    {
      assert a[..n][k] == a[k];
    }
    forall k | n + 1 <= k < |b| && b[k].Barrier?
      ensures !b[k].notify
    {
      assert a[n + 1..][k - n - 1] == a[k];
    }
  }

  /** A batch whose barrier, if it has one, is not on queue q. */
  lemma QuietElsewhere(s: BState, s': BState, q: nat)
    requires BatchOk(s) && q < |s.queues| == |s'.queues| && s' == s.(queues := s.queues[q := s'.queues[q]])
    requires Quiet(s.queues[q]) ==> Quiet(s'.queues[q])
    ensures !(s.batch.Enqueued? && s.batch.q == q) ==> BatchOk(s')
    ensures s.batch.Enqueued? && s.batch.q == q ==> NotifyOnly(s', q)
  {
    hide Closed, BatchBarrier, Quiet;
    if s.batch.Enqueued? && s.batch.q != q {
      var n :| 0 <= n < |s.queues[s.batch.q]| && BatchBarrier(s.tasks, s.queues[s.batch.q], s.batch.sinks, n);
      assert BatchBarrier(s'.tasks, s'.queues[s.batch.q], s.batch.sinks, n);
    }
  }

  lemma ObserveBatch(s: BState, q: nat, i: nat)
    requires Tasks(s) && SignalValues(s) && BatchOk(s) && CanObserve(s, q, i)
    ensures BatchOk(DoObserve(s, q, i))
  {
    hide Tasks, SignalValues, Closed, BatchBarrier;
    var s' := DoObserve(s, q, i);
    assert s'.queues[q] == Seen(s.queues[q], i);
    assert Quiet(s.queues[q]) ==> Quiet(s'.queues[q]);
    QuietElsewhere(s, s', q);
    if s.batch.Enqueued? && s.batch.q == q {
      var n :| 0 <= n < |s.queues[q]| && BatchBarrier(s.tasks, s.queues[q], s.batch.sinks, n);
      BatchBarrierSeen(s, s.queues[q], i, s.batch.sinks, n);
    }
  }

  lemma ObserveQueues(s: BState, q: nat, i: nat)
    requires Tasks(s) && SignalValues(s) && Queues(s) && CanObserve(s, q, i)
    ensures Queues(DoObserve(s, q, i))
  {
    hide Tasks, SignalValues, QueueOk;
    assert QueueOk(s.tasks, s.queues[q]);
    QueueSeen(s, s.queues[q], i);
    assert DoObserve(s, q, i).queues[q] == Seen(s.queues[q], i);
  }

  lemma ObserveKeeps(s: BState, q: nat, i: nat)
    requires Inv(s) && CanObserve(s, q, i)
    ensures Inv(DoObserve(s, q, i))
  {
    hide Tasks, SignalPool, SignalValues, InFlight, Safe, Queues, Sinks, BatchOk, Peeks, CreatedOk;
    CalmOf(s);
    CalmStays(s, DoObserve(s, q, i));
    ObserveQueues(s, q, i);
    ObserveBatch(s, q, i);
    InvOf(DoObserve(s, q, i));
  }

  // ---------------------------------------------------------------- a barrier completes, a task starts

  lemma BatchBarrierPop(tasks: seq<BTask>, queue: seq<Packet>, sinks: seq<nat>, n: nat)
    requires 0 < n < |queue| && (queue[0].Barrier? ==> queue[0].waiting == []) && BatchBarrier(tasks, queue, sinks, n)
    ensures BatchBarrier(tasks, queue[1..], sinks, n - 1)
  {
    assert queue[1..][..n - 1] == queue[..n][1..];
    assert queue[1..][n - 1 + 1..] == queue[n + 1..];
    forall j | 0 <= j < |sinks|
      ensures Shielded(tasks, queue[1..], n, sinks[j])
    {
      ShieldedPop(tasks, queue, n + 1, sinks[j]);
    }
  }

  /** When the batch's barrier is at the head and done, every sink has finished. */
  lemma SinksDone(tasks: seq<BTask>, queue: seq<Packet>, sinks: seq<nat>)
    requires 0 < |queue| && queue[0].Barrier? && queue[0].waiting == [] && BatchBarrier(tasks, queue, sinks, 0)
    ensures forall j :: 0 <= j < |sinks| ==> Finished(tasks, sinks[j])
  {
    forall j | 0 <= j < |sinks|
      ensures Finished(tasks, sinks[j])
    {
      assert Shielded(tasks, queue, 1, sinks[j]);
    }
  }

  /** The head that tells the batch is the batch's own barrier. */
  lemma HeadIsTheBarrier(s: BState, q: nat) returns (n: nat)
    requires BatchOk(s) && s.batch.Enqueued? && q < |s.queues| && |s.queues[q]| > 0
    requires s.queues[q][0].Barrier? && s.queues[q][0].notify
    ensures q == s.batch.q && n == 0 && BatchBarrier(s.tasks, s.queues[q], s.batch.sinks, n)
  {
    n :| 0 <= n < |s.queues[s.batch.q]| && BatchBarrier(s.tasks, s.queues[s.batch.q], s.batch.sinks, n);
  }

  /** The handler runs only once every task of the batch has finished. */
  lemma BatchFinished(s: BState, q: nat)
    requires Tasks(s) && Safe(s.tasks) && BatchOk(s) && CanFinishBarrier(s, q) && s.queues[q][0].notify
    ensures forall k :: 0 <= k < |s.batch.members| ==> Finished(s.tasks, s.batch.members[k])
    ensures forall k :: 0 <= k < |s.queues| ==> Quiet(DoFinishBarrier(s, q).queues[k])
  {
    hide Tasks, Safe;
    var n := HeadIsTheBarrier(s, q);
    SinksDone(s.tasks, s.queues[q], s.batch.sinks);
    forall k | 0 <= k < |s.batch.members|
      ensures Finished(s.tasks, s.batch.members[k])
    {
      SinksFinishLast(s, s.batch.members, ToSet(s.batch.sinks), s.batch.members[k]);
    }
  }

  lemma PopBatch(s: BState, q: nat)
    requires BatchOk(s) && q < |s.queues| && |s.queues[q]| > 0
    requires s.queues[q][0].Barrier? ==> s.queues[q][0].waiting == [] && !s.queues[q][0].notify
    ensures BatchOk(s.(queues := s.queues[q := s.queues[q][1..]]))
  {
    hide Closed, BatchBarrier;
    var s' := s.(queues := s.queues[q := s.queues[q][1..]]);
    assert Quiet(s.queues[q]) ==> Quiet(s'.queues[q]);
    QuietElsewhere(s, s', q);
    if s.batch.Enqueued? && s.batch.q == q {
      var n :| 0 <= n < |s.queues[q]| && BatchBarrier(s.tasks, s.queues[q], s.batch.sinks, n);
      BarrierTells(s.tasks, s.queues[q], s.batch.sinks, n);
      BatchBarrierPop(s.tasks, s.queues[q], s.batch.sinks, n);
    }
  }

  lemma BarrierTells(tasks: seq<BTask>, queue: seq<Packet>, sinks: seq<nat>, n: nat)
    requires n < |queue| && BatchBarrier(tasks, queue, sinks, n)
    ensures queue[n].Barrier? && queue[n].notify
  {
  }

  lemma PopQueues(s: BState, q: nat)
    requires Queues(s) && q < |s.queues| && |s.queues[q]| > 0
    requires s.queues[q][0].Barrier? ==> s.queues[q][0].waiting == []
    ensures Queues(s.(queues := s.queues[q := s.queues[q][1..]]))
  {
    hide QueueOk;
    assert QueueOk(s.tasks, s.queues[q]);
    QueuePop(s.tasks, s.queues[q]);
  }

  lemma BarrierDoneBatch(s: BState, q: nat)
    requires Tasks(s) && Safe(s.tasks) && BatchOk(s) && CanFinishBarrier(s, q)
    ensures BatchOk(DoFinishBarrier(s, q)) && BatchRest(DoFinishBarrier(s, q).batch) == BatchRest(s.batch)
  {
    hide Tasks, Safe, Closed, BatchBarrier;
    var s' := DoFinishBarrier(s, q);
    if s.queues[q][0].notify {
      BatchFinished(s, q);
      assert s.batch.members[0..] == s.batch.members;
    } else {
      PopBatch(s, q);
    }
  }

  lemma BarrierDoneKeeps(s: BState, q: nat)
    requires Inv(s) && CanFinishBarrier(s, q)
    ensures Inv(DoFinishBarrier(s, q))
  {
    hide Tasks, SignalPool, SignalValues, InFlight, Safe, Queues, Sinks, BatchOk, Peeks, CreatedOk, BatchRest;
    var s' := DoFinishBarrier(s, q);
    CalmOf(s);
    BarrierDoneBatch(s, q);
    CalmStays(s, s');
    PopQueues(s, q);
    QueuesGrow(s.(queues := s'.queues), s');
    InvOf(s');
  }

  /** The slot at the head of a queue has no barrier left before it, so its predecessors have finished. */
  lemma HeadIsSafe(s: BState, q: nat)
    requires Queues(s) && CanStart(s, q)
    ensures forall j :: 0 <= j < |s.tasks[s.queues[q][0].task].preds| ==>
              Finished(s.tasks, s.tasks[s.queues[q][0].task].preds[j])
  {
    var t := s.queues[q][0].task;
    assert QueueOk(s.tasks, s.queues[q]);
    assert SlotOk(s.tasks, s.queues[q], 0);
    forall j | 0 <= j < |s.tasks[t].preds|
      ensures Finished(s.tasks, s.tasks[t].preds[j])
    {
      assert Shielded(s.tasks, s.queues[q], 0, s.tasks[t].preds[j]);
    }
  }

  lemma StartTasks(s: BState, q: nat)
    requires Tasks(s) && CanStart(s, q)
    ensures Tasks(DoStart(s, q)) && AllGrow(s.tasks, DoStart(s, q).tasks)
  {
  }

  lemma StartSafe(s: BState, q: nat)
    requires Queues(s) && Safe(s.tasks) && CanStart(s, q)
    ensures Safe(DoStart(s, q).tasks)
  {
    HeadIsSafe(s, q);
    hide Queues;
    SafeGrows(s.tasks, DoStart(s, q).tasks);
  }

  lemma StartValues(s: BState, q: nat)
    requires SignalValues(s) && CanStart(s, q)
    ensures SignalValues(DoStart(s, q))
  {
  }

  lemma StartKeeps(s: BState, q: nat)
    requires Inv(s) && CanStart(s, q)
    ensures Inv(DoStart(s, q))
  {
    hide Tasks, SignalPool, SignalValues, InFlight, Safe, Queues, Sinks, BatchOk, Peeks, CreatedOk, BatchRest;
    var s', t := DoStart(s, q), s.queues[q][0].task;
    var popped := s.(queues := s'.queues);
    PopQueues(s, q);
    PopBatch(s, q);
    StartTasks(s, q);
    QueuesGrow(popped, s');
    BatchGrows(popped, s');
    SinksGrow(s, s');
    PeeksGrow(s, s');
    CreatedGrows(s, s');
    StartSafe(s, q);
    StartValues(s, q);
    PoolSame(s, s', t);
    FlightSame(s, s', t);
  }

  // ---------------------------------------------------------------- the batch

  lemma SealBag(s: BState, g: nat, sinks: seq<nat>)
    requires CanSeal(s, g, sinks)
    ensures FlightBag(DoSeal(s, g, sinks)) == FlightBag(s)
  {
    var s' := DoSeal(s, g, sinks);
    var d := multiset(s.groups[g].dispatched);
    TotalGain(s'.groups, g, s.groups[g], DispatchedOf, d);
    assert s'.groups[g := s.groups[g]] == s.groups;
  }

  lemma SealSinks(s: BState, g: nat, sinks: seq<nat>)
    requires Sinks(s) && BatchOk(s) && CanSeal(s, g, sinks)
    ensures Sinks(DoSeal(s, g, sinks)) && BatchOk(DoSeal(s, g, sinks))
  {
    assert Closed(s.tasks, s.groups[g].dispatched, s.groups[g].sinks);
    assert Closed(s.tasks, [], {});
  }

  lemma SealRest(s: BState, g: nat, sinks: seq<nat>)
    requires Tasks(s) && Peeks(s) && CreatedOk(s) && InFlight(s) && CanSeal(s, g, sinks)
    ensures Tasks(DoSeal(s, g, sinks)) && Peeks(DoSeal(s, g, sinks)) && CreatedOk(DoSeal(s, g, sinks))
    ensures InFlight(DoSeal(s, g, sinks))
  {
    hide FlightBag;
    var s' := DoSeal(s, g, sinks);
    SealBag(s, g, sinks);
    forall i | 0 <= i < |s.tasks| ensures TaskOk(s', i) { assert TaskOk(s, i); }
    forall t | t in s.peeked ensures PeekOk(s', t) { assert PeekOk(s, t); }
  }

  lemma SealSignals(s: BState, g: nat, sinks: seq<nat>)
    requires SignalPool(s) && SignalValues(s) && CanSeal(s, g, sinks)
    ensures SignalPool(DoSeal(s, g, sinks)) && SignalValues(DoSeal(s, g, sinks))
  {
  }

  lemma SealKeeps(s: BState, g: nat, sinks: seq<nat>)
    requires Inv(s) && CanSeal(s, g, sinks)
    ensures Inv(DoSeal(s, g, sinks))
  {
    var s' := DoSeal(s, g, sinks);
    hide Tasks, SignalPool, SignalValues, InFlight, Safe, Queues, Sinks, BatchOk, Peeks, CreatedOk;
    SealSignals(s, g, sinks);
    SealSinks(s, g, sinks);
    SealRest(s, g, sinks);
    QueuesGrow(s, s');
  }

  lemma EnqueueBarrier(s: BState, q: nat)
    requires BatchOk(s) && CanEnqueue(s, q)
    ensures var queue := DoEnqueue(s, q).queues[q];
            |queue| > 0 && BatchBarrier(s.tasks, queue, s.batch.sinks, |queue| - 1)
  {
    var s' := DoEnqueue(s, q);
    var sinks := s.batch.sinks;
    var packets := BarrierPackets(SignalsOf(s.tasks, sinks), true);
    var queue' := s'.queues[q];
    BarrierPacketsCover(SignalsOf(s.tasks, sinks), true);
    var n := |queue'| - 1;
    assert queue' == s.queues[q] + packets;
    assert queue'[n] == packets[|packets| - 1];
    assert Quiet(queue'[..n]) by { EnqueueQuiet(s.queues[q], packets); }
    assert queue'[n + 1..] == [];
    forall j | 0 <= j < |sinks|
      ensures Shielded(s.tasks, queue', n + 1, sinks[j])
    {
      assert sinks[j] in ToSet(sinks);
      assert sinks[j] in s.batch.members;
      WaitsForSignal(s.tasks, sinks, sinks[j]);
      AwaitsAppended(s.queues[q], packets, [], s.tasks[sinks[j]].signal);
      assert s.queues[q] + packets + [] == queue';
    }
  }

  lemma EnqueueQuiet(queue: seq<Packet>, packets: seq<Packet>)
    requires Quiet(queue) && |packets| > 0
    requires forall j :: 0 <= j < |packets| ==> packets[j].Barrier? && packets[j].notify == (j == |packets| - 1)
    ensures Quiet((queue + packets)[..|queue + packets| - 1])
  {
    var all := queue + packets;
    forall i | 0 <= i < |all| - 1 && all[i].Barrier?
      ensures !all[i].notify
    {
      if i < |queue| {
        assert all[i] == queue[i];
      } else {
        assert all[i] == packets[i - |queue|];
      }
    }
  }

  lemma EnqueueQueues(s: BState, q: nat)
    requires Queues(s) && CanEnqueue(s, q)
    ensures Queues(DoEnqueue(s, q))
  {
    var packets := BarrierPackets(SignalsOf(s.tasks, s.batch.sinks), true);
    BarrierPacketsCover(SignalsOf(s.tasks, s.batch.sinks), true);
    forall k | 0 <= k < |s.queues|
      ensures QueueOk(s.tasks, DoEnqueue(s, q).queues[k])
    {
      assert QueueOk(s.tasks, s.queues[k]);
      if k == q {
        forall i | |s.queues[q]| <= i < |s.queues[q] + packets|
          ensures SlotOk(s.tasks, s.queues[q] + packets, i)
        {
          assert (s.queues[q] + packets)[i] == packets[i - |s.queues[q]|];
        }
        QueueAppend(s.tasks, s.queues[q], packets);
      }
    }
  }

  lemma EnqueueBatchOk(s: BState, q: nat)
    requires BatchOk(s) && CanEnqueue(s, q)
    ensures BatchOk(DoEnqueue(s, q))
  {
    EnqueueBarrier(s, q);
  }

  lemma EnqueueKeeps(s: BState, q: nat)
    requires Inv(s) && CanEnqueue(s, q)
    ensures Inv(DoEnqueue(s, q))
  {
    hide Tasks, SignalPool, SignalValues, InFlight, Safe, Queues, Sinks, BatchOk, Peeks, CreatedOk;
    CalmOf(s);
    CalmStays(s, DoEnqueue(s, q));
    EnqueueQueues(s, q);
    EnqueueBatchOk(s, q);
    InvOf(DoEnqueue(s, q));
  }

  /** What the handler is about to complete is still in flight and has finished. */
  lemma MemberOwns(s: BState)
    requires BatchOk(s) && InFlight(s) && s.batch.Handling? && s.batch.i < |s.batch.members|
    ensures var m := s.batch.members[s.batch.i]; m < |s.tasks| && Owns(s.tasks[m]) && s.tasks[m].finished
  {
    var m := s.batch.members[s.batch.i];
    assert Finished(s.tasks, m);
    assert s.batch.members[s.batch.i..][0] == m;
    assert m in BatchRest(s.batch);
    assert FlightBag(s)[m] >= 1;
  }

  lemma MarkTasks(s: BState)
    requires Tasks(s) && SignalValues(s) && CanMark(s) && s.tasks[s.batch.members[s.batch.i]].finished
    requires Owns(s.tasks[s.batch.members[s.batch.i]])
    ensures Tasks(DoMark(s)) && SignalValues(DoMark(s)) && AllGrow(s.tasks, DoMark(s).tasks)
  {
  }

  /** The batch once task m of it has taken a step. */
  lemma HandlingGrows(s: BState, s': BState)
    requires BatchOk(s) && s.batch.Handling? && AllGrow(s.tasks, s'.tasks) && s'.queues == s.queues
    requires s'.batch.Handling? && s'.batch.members == s.batch.members
    requires s'.batch.i <= |s.batch.members| && (s'.batch.executed ==> s'.batch.i < |s.batch.members|)
    ensures BatchOk(s')
  {
    forall k | 0 <= k < |s.batch.members|
      ensures Finished(s'.tasks, s.batch.members[k])
    {
      assert Finished(s.tasks, s.batch.members[k]);
      assert Grows(s.tasks[s.batch.members[k]], s'.tasks[s.batch.members[k]]);
    }
  }

  lemma MarkKeeps(s: BState)
    requires Inv(s) && CanMark(s)
    ensures Inv(DoMark(s))
  {
    hide Tasks, SignalPool, SignalValues, InFlight, Safe, Queues, Sinks, BatchOk, Peeks, CreatedOk;
    var s', m := DoMark(s), s.batch.members[s.batch.i];
    MemberOwns(s);
    MarkTasks(s);
    PoolSame(s, s', m);
    FlightSame(s, s', m);
    SafeGrows(s.tasks, s'.tasks);
    HandlingGrows(s, s');
    QueuesGrow(s, s');
    SinksGrow(s, s');
    PeeksGrow(s, s');
    CreatedGrows(s, s');
  }

  lemma ReclaimTasks(s: BState)
    requires Tasks(s) && SignalPool(s) && SignalValues(s) && CanReclaim(s)
    requires s.tasks[s.batch.members[s.batch.i]].finished && Owns(s.tasks[s.batch.members[s.batch.i]])
    ensures Tasks(DoReclaim(s)) && SignalValues(DoReclaim(s)) && AllGrow(s.tasks, DoReclaim(s).tasks)
  {
  }

  lemma ReclaimPool(s: BState)
    requires SignalPool(s) && CanReclaim(s) && Owns(s.tasks[s.batch.members[s.batch.i]])
    ensures SignalPool(DoReclaim(s))
  {
    var m := s.batch.members[s.batch.i];
    HandBack(s.freeSignals, DoReclaim(s).freeSignals, s.tasks, m, DoReclaim(s).tasks[m], OwnedSignal);
  }

  lemma FlightLoss(s: BState, s': BState, t: nat)
    requires InFlight(s) && t < |s.tasks| == |s'.tasks| && FlightBag(s) == FlightBag(s') + multiset{t}
    requires Owns(s.tasks[t]) && !Owns(s'.tasks[t]) && s'.tasks == s.tasks[t := s'.tasks[t]]
    ensures InFlight(s')
  {
    hide FlightBag, Owns;
    forall i: nat
      ensures FlightBag(s')[i] == if i < |s'.tasks| && Owns(s'.tasks[i]) then 1 else 0
    {
      assert FlightBag(s)[i] == if i < |s.tasks| && Owns(s.tasks[i]) then 1 else 0;
    }
  }

  lemma ReclaimFlight(s: BState)
    requires InFlight(s) && CanReclaim(s) && Owns(s.tasks[s.batch.members[s.batch.i]])
    ensures InFlight(DoReclaim(s))
  {
    hide InFlight;
    var members, i := s.batch.members, s.batch.i;
    assert members[i..] == [members[i]] + members[i + 1..];
    assert FlightBag(s) == FlightBag(DoReclaim(s)) + multiset{members[i]};
    FlightLoss(s, DoReclaim(s), members[i]);
  }

  lemma ReclaimKeeps(s: BState)
    requires Inv(s) && CanReclaim(s)
    ensures Inv(DoReclaim(s))
  {
    hide Tasks, SignalPool, SignalValues, InFlight, Safe, Queues, Sinks, BatchOk, Peeks, CreatedOk;
    var s' := DoReclaim(s);
    MemberOwns(s);
    ReclaimTasks(s);
    ReclaimPool(s);
    ReclaimFlight(s);
    SafeGrows(s.tasks, s'.tasks);
    HandlingGrows(s, s');
    QueuesGrow(s, s');
    SinksGrow(s, s');
    PeeksGrow(s, s');
    CreatedGrows(s, s');
  }

  lemma EndKeeps(s: BState)
    requires Inv(s) && s.batch.Handling? && s.batch.i == |s.batch.members|
    ensures Inv(s.(batch := NoBatch))
  {
    var s' := s.(batch := NoBatch);
    assert BatchOk(s');
    assert s.batch.members[s.batch.i..] == [];
    hide Tasks, SignalPool, SignalValues, InFlight, Safe, Queues, Sinks, BatchOk, Peeks, CreatedOk;
    CalmOf(s);
    CalmStays(s, s');
    QueuesGrow(s, s');
    InvOf(s');
  }
}
