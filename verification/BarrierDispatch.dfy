/** A dispatch behind barriers, and every other outcome of trying one, keeps the invariant. */
module BarrierDispatch {
  import opened TaskStates
  import opened Bags
  import opened BarrierMode
  import opened BarrierInvariant
  import opened BarrierSteps
  import opened BarrierQueues

  ghost predicate Dispatches(s: BState, t: nat, q: nat) {
    && CanTry(s, t, q) && |s.freeSignals| > 0 && |s.groups[s.tasks[t].group].created| > 0
    && s.tasks[t].status.Rank() < Ready.Rank() && PredsDispatched(s.tasks, s.tasks[t].preds)
  }

  lemma DispatchTasks(s: BState, t: nat, q: nat)
    requires Tasks(s) && Dispatches(s, t, q)
    ensures Tasks(DispatchNow(s, t, q))
    ensures AllGrow(s.tasks, DispatchNow(s, t, q).tasks) && !DispatchNow(s, t, q).tasks[t].started
  {
    assert TaskOk(s, t);
  }

  lemma DispatchPool(s: BState, t: nat, q: nat)
    requires SignalPool(s) && Dispatches(s, t, q)
    ensures SignalPool(DispatchNow(s, t, q))
  {
    var s' := DispatchNow(s, t, q);
    assert s.freeSignals == [s.freeSignals[0]] + s'.freeSignals;
    HandBack(s.freeSignals, s'.freeSignals, s.tasks, t, s'.tasks[t], OwnedSignal);
  }

  lemma FreeDiffer(s: BState, j: nat)
    requires SignalPool(s) && 0 < j < |s.freeSignals|
    ensures s.freeSignals[j] != s.freeSignals[0]
  {
    var all := multiset(s.freeSignals) + Total(s.tasks, OwnedSignal);
    var g := s.freeSignals[0];
    assert s.freeSignals == [g] + s.freeSignals[1..];
    assert s.freeSignals[j] == s.freeSignals[1..][j - 1];
    assert s.freeSignals[j] in multiset(s.freeSignals[1..]);
    assert all[g] <= 1;
  }

  lemma DispatchValues(s: BState, t: nat, q: nat)
    requires SignalPool(s) && SignalValues(s) && Tasks(s) && Dispatches(s, t, q)
    ensures SignalValues(DispatchNow(s, t, q))
  {
    hide SignalPool;
    var s' := DispatchNow(s, t, q);
    assert TaskOk(s, t);
    forall j | 0 <= j < |s'.freeSignals|
      ensures s'.freeSignals[j] < s.maxSignals && s'.signalValue[s'.freeSignals[j]] == 0
    {
      assert s'.freeSignals[j] == s.freeSignals[j + 1];
      FreeDiffer(s, j + 1);
    }
    forall i | 0 <= i < |s.tasks| && Owns(s.tasks[i])
      ensures s.tasks[i].signal != s.freeSignals[0]
    {
      OwnedIsNotFree(s, i);
    }
  }

  lemma FlightGain(s: BState, s': BState, t: nat)
    requires InFlight(s) && t < |s.tasks| == |s'.tasks| && FlightBag(s') == FlightBag(s) + multiset{t}
    requires !Owns(s.tasks[t]) && Owns(s'.tasks[t]) && s'.tasks == s.tasks[t := s'.tasks[t]]
    ensures InFlight(s')
  {
    hide FlightBag, Owns;
    forall i: nat
      ensures FlightBag(s')[i] == if i < |s'.tasks| && Owns(s'.tasks[i]) then 1 else 0
    {
      assert FlightBag(s)[i] == if i < |s.tasks| && Owns(s.tasks[i]) then 1 else 0;
    }
  }

  lemma RecordBag(s: BState, t: nat, q: nat)
    requires Dispatches(s, t, q)
    ensures FlightBag(DispatchNow(s, t, q)) == FlightBag(s) + multiset{t}
  {
    var s', g := DispatchNow(s, t, q), s.tasks[t].group;
    var before, after := Total(s.groups, DispatchedOf), Total(s'.groups, DispatchedOf);
    assert after == before + multiset{t} by {
      hide BatchRest;
      assert DispatchedOf(s'.groups[g]) == DispatchedOf(s.groups[g]) + multiset{t};
      TotalGain(s.groups, g, s'.groups[g], DispatchedOf, multiset{t});
    }
    assert before + multiset{t} + BatchRest(s.batch) == before + BatchRest(s.batch) + multiset{t};
  }

  lemma DispatchFlight(s: BState, t: nat, q: nat)
    requires InFlight(s) && Dispatches(s, t, q)
    ensures InFlight(DispatchNow(s, t, q))
  {
    hide InFlight, FlightBag;
    RecordBag(s, t, q);
    FlightGain(s, DispatchNow(s, t, q), t);
  }

  /** The predecessors of the new slot that have not finished are waited for by the barriers before it. */
  lemma DispatchSlot(s: BState, t: nat, q: nat)
    requires Tasks(s) && Dispatches(s, t, q)
    ensures SlotOk(DispatchNow(s, t, q).tasks, DispatchNow(s, t, q).queues[q], |DispatchNow(s, t, q).queues[q]| - 1)
  {
    var s' := DispatchNow(s, t, q);
    var queue, queue', preds := s.queues[q], s'.queues[q], s.tasks[t].preds;
    var n := |queue'| - 1;
    var andPreds := Unexecuted(s.tasks, preds);
    assert queue'[n] == Slot(t);
    assert TaskOk(s, t);
    forall j | 0 <= j < |preds|
      ensures Shielded(s'.tasks, queue', n, preds[j])
    {
      var p := preds[j];
      assert TaskOk(s, p);
      if !s.tasks[p].finished {
        assert p in andPreds;
        WaitsForSignal(s.tasks, andPreds, p);
        var packets := BarrierPackets(SignalsOf(s.tasks, andPreds), false);
        AwaitsAppended(queue, packets, [Slot(t)], s.tasks[p].signal);
        assert queue' == queue + packets + [Slot(t)];
      }
    }
  }

  lemma WaitsForSignal(tasks: seq<BTask>, ids: seq<nat>, p: nat)
    requires (forall j :: 0 <= j < |ids| ==> ids[j] < |tasks|) && p in ids
    ensures Waits(BarrierPackets(SignalsOf(tasks, ids), false), tasks[p].signal)
    ensures Waits(BarrierPackets(SignalsOf(tasks, ids), true), tasks[p].signal)
  {
    var j :| 0 <= j < |ids| && ids[j] == p;
    assert SignalsOf(tasks, ids)[j] == tasks[p].signal;
    BarrierPacketsCover(SignalsOf(tasks, ids), false);
    BarrierPacketsCover(SignalsOf(tasks, ids), true);
  }

  lemma DispatchQueueOk(s: BState, t: nat, q: nat)
    requires Tasks(s) && Dispatches(s, t, q) && QueueOk(s.tasks, s.queues[q])
    ensures QueueOk(DispatchNow(s, t, q).tasks, DispatchNow(s, t, q).queues[q])
  {
    var s' := DispatchNow(s, t, q);
    var more := DispatchPackets(SignalsOf(s.tasks, Unexecuted(s.tasks, s.tasks[t].preds)), t);
    DispatchTasks(s, t, q);
    QueueGrows(s.tasks, s'.tasks, s.queues[q]);
    DispatchSlot(s, t, q);
    OnlyLastIsSlot(SignalsOf(s.tasks, Unexecuted(s.tasks, s.tasks[t].preds)), t);
    assert s'.queues[q] == s.queues[q] + more;
    forall i | |s.queues[q]| <= i < |s.queues[q] + more|
      ensures SlotOk(s'.tasks, s.queues[q] + more, i)
    {
      assert (s.queues[q] + more)[i] == more[i - |s.queues[q]|];
    }
    QueueAppend(s'.tasks, s.queues[q], more);
  }

  lemma OnlyLastIsSlot(sigs: seq<nat>, t: nat)
    ensures forall i :: 0 <= i < |DispatchPackets(sigs, t)| - 1 ==>
              DispatchPackets(sigs, t)[i].Barrier? && !DispatchPackets(sigs, t)[i].notify
    ensures |DispatchPackets(sigs, t)| > 0 && DispatchPackets(sigs, t)[|DispatchPackets(sigs, t)| - 1] == Slot(t)
    ensures Quiet(DispatchPackets(sigs, t))
  {
    BarrierPacketsCover(sigs, false);
  }

  lemma DispatchQueues(s: BState, t: nat, q: nat)
    requires Tasks(s) && Queues(s) && Dispatches(s, t, q)
    ensures Queues(DispatchNow(s, t, q))
  {
    var s' := DispatchNow(s, t, q);
    DispatchTasks(s, t, q);
    forall k | 0 <= k < |s.queues|
      ensures QueueOk(s'.tasks, s'.queues[k])
    {
      assert QueueOk(s.tasks, s.queues[k]);
      if k == q {
        DispatchQueueOk(s, t, q);
      } else {
        QueueGrows(s.tasks, s'.tasks, s.queues[k]);
      }
    }
  }

  /** The new sink takes the place of the sinks it waits for. */
  lemma RecordClosed(s: BState, t: nat, q: nat)
    requires Tasks(s) && Dispatches(s, t, q)
    requires Closed(s.tasks, s.groups[s.tasks[t].group].dispatched, s.groups[s.tasks[t].group].sinks)
    ensures Closed(DispatchNow(s, t, q).tasks, DispatchNow(s, t, q).groups[s.tasks[t].group].dispatched,
                   DispatchNow(s, t, q).groups[s.tasks[t].group].sinks)
  {
    var s' := DispatchNow(s, t, q);
    var g, g' := s.groups[s.tasks[t].group], s'.groups[s.tasks[t].group];
    assert TaskOk(s, t);
    assert g'.dispatched == g.dispatched + [t];
    DispatchTasks(s, t, q);
    ClosedGrows(s.tasks, s'.tasks, g.dispatched, g.sinks);
    forall k | 0 <= k < |g'.dispatched|
      ensures CoveredIn(s'.tasks, g'.dispatched, g'.sinks, g'.dispatched[k])
    {
      RecordCovers(s, t, q, g'.dispatched[k]);
    }
  }

  lemma RecordCovers(s: BState, t: nat, q: nat, d: nat)
    requires Tasks(s) && Dispatches(s, t, q)
    requires d != t ==>
               CoveredIn(DispatchNow(s, t, q).tasks, s.groups[s.tasks[t].group].dispatched,
                         s.groups[s.tasks[t].group].sinks, d)
    ensures CoveredIn(DispatchNow(s, t, q).tasks, DispatchNow(s, t, q).groups[s.tasks[t].group].dispatched,
                      DispatchNow(s, t, q).groups[s.tasks[t].group].sinks, d)
  {
    var s' := DispatchNow(s, t, q);
    var g, g' := s.groups[s.tasks[t].group], s'.groups[s.tasks[t].group];
    assert TaskOk(s, t);
    var andPreds := Unexecuted(s.tasks, s.tasks[t].preds);
    assert g'.dispatched[|g.dispatched|] == t && s'.tasks[t].andPreds == andPreds;
    if d == t {
      assert t !in andPreds;
    } else if d in g.sinks {
      assert d in g'.sinks || d in andPreds;
    } else {
      var k :| 0 <= k < |g.dispatched| && g.dispatched[k] < |s'.tasks| && d in s'.tasks[g.dispatched[k]].andPreds;
      assert g'.dispatched[k] == g.dispatched[k];
    }
  }

  lemma DispatchSinks(s: BState, t: nat, q: nat)
    requires Tasks(s) && Sinks(s) && Dispatches(s, t, q)
    ensures Sinks(DispatchNow(s, t, q))
  {
    var s' := DispatchNow(s, t, q);
    DispatchTasks(s, t, q);
    forall h | 0 <= h < |s'.groups|
      ensures Closed(s'.tasks, s'.groups[h].dispatched, s'.groups[h].sinks)
    {
      assert Closed(s.tasks, s.groups[h].dispatched, s.groups[h].sinks);
      if h == s.tasks[t].group {
        RecordClosed(s, t, q);
      } else {
        ClosedGrows(s.tasks, s'.tasks, s.groups[h].dispatched, s.groups[h].sinks);
      }
    }
  }

  lemma BatchBarrierAppend(tasks: seq<BTask>, queue: seq<Packet>, more: seq<Packet>, sinks: seq<nat>, n: nat)
    requires n < |queue| && BatchBarrier(tasks, queue, sinks, n) && Quiet(more)
    ensures BatchBarrier(tasks, queue + more, sinks, n)
  {
    assert (queue + more)[..n] == queue[..n];
    assert (queue + more)[n + 1..] == queue[n + 1..] + more;
    forall j | 0 <= j < |sinks|
      ensures Shielded(tasks, queue + more, n + 1, sinks[j])
    {
      ShieldedPrefix(tasks, queue, more, n + 1, sinks[j]);
    }
  }

  /** The batch is not affected by quiet packets put on a queue. */
  lemma BatchAppend(s: BState, s': BState, q: nat, more: seq<Packet>)
    requires BatchOk(s) && AllGrow(s.tasks, s'.tasks) && q < |s.queues| && Quiet(more)
    requires s'.queues == s.queues[q := s.queues[q] + more] && s'.batch == s.batch
    ensures BatchOk(s')
  {
    BatchGrows(s, s'.(queues := s.queues));
    QuietsAppend(s.queues, q, more);
    hide Closed, BatchBarrier, Quiet;
    if s.batch.Enqueued? {
      var sinks, b := s.batch.sinks, s.batch.q;
      var n :| 0 <= n < |s.queues[b]| && BatchBarrier(s'.tasks, s.queues[b], sinks, n);
      if b == q {
        BatchBarrierAppend(s'.tasks, s.queues[q], more, sinks, n);
        assert s'.queues[q] == s.queues[q] + more;
      }
      assert 0 <= n < |s'.queues[b]| && BatchBarrier(s'.tasks, s'.queues[b], sinks, n);
    }
  }

  lemma QuietsAppend(queues: seq<seq<Packet>>, q: nat, more: seq<Packet>)
    requires q < |queues| && Quiet(more)
    ensures var queues' := queues[q := queues[q] + more];
            forall k :: 0 <= k < |queues| && Quiet(queues[k]) ==> Quiet(queues'[k])
  {
  }

  lemma DispatchBatch(s: BState, t: nat, q: nat)
    requires Tasks(s) && BatchOk(s) && Dispatches(s, t, q)
    ensures BatchOk(DispatchNow(s, t, q))
  {
    hide BatchOk;
    var s' := DispatchNow(s, t, q);
    var sigs := SignalsOf(s.tasks, Unexecuted(s.tasks, s.tasks[t].preds));
    DispatchTasks(s, t, q);
    OnlyLastIsSlot(sigs, t);
    BatchAppend(s, s', q, DispatchPackets(sigs, t));
  }

  /** The task taken off created_tasks_ is the one that was dispatched, so nobody's peeked task is lost. */
  lemma DispatchPeeks(s: BState, t: nat, q: nat)
    requires Peeks(s) && Dispatches(s, t, q)
    ensures s.groups[s.tasks[t].group].created[0] == t
    ensures Peeks(DispatchNow(s, t, q))
  {
    assert PeekOk(s, t);
    forall k | k in s.peeked
      ensures PeekOk(DispatchNow(s, t, q), k)
    {
      assert PeekOk(s, k);
    }
  }

  lemma DispatchCreated(s: BState, t: nat, q: nat)
    requires CreatedOk(s) && Dispatches(s, t, q)
    ensures CreatedOk(DispatchNow(s, t, q))
  {
    var s' := DispatchNow(s, t, q);
    forall g, k | 0 <= g < |s'.groups| && 0 <= k < |s'.groups[g].created|
      ensures s'.groups[g].created[k] < |s'.tasks| && s'.tasks[s'.groups[g].created[k]].group == g
    {
      if g == s.tasks[t].group {
        assert s'.groups[g].created[k] == s.groups[g].created[k + 1];
      }
    }
  }

  lemma DispatchKeeps(s: BState, t: nat, q: nat)
    requires Inv(s) && Dispatches(s, t, q)
    ensures Inv(DispatchNow(s, t, q))
  {
    hide Tasks, SignalPool, SignalValues, InFlight, Safe, Queues, Sinks, BatchOk, Peeks, CreatedOk, Dispatches;
    DispatchTasks(s, t, q);
    DispatchPool(s, t, q);
    DispatchValues(s, t, q);
    DispatchFlight(s, t, q);
    DispatchSafe(s, t, q);
    DispatchQueues(s, t, q);
    DispatchSinks(s, t, q);
    DispatchBatch(s, t, q);
    DispatchPeeks(s, t, q);
    DispatchCreated(s, t, q);
  }

  lemma DispatchSafe(s: BState, t: nat, q: nat)
    requires Tasks(s) && Safe(s.tasks) && Dispatches(s, t, q)
    ensures Safe(DispatchNow(s, t, q).tasks)
  {
    DispatchTasks(s, t, q);
    SafeGrows(s.tasks, DispatchNow(s, t, q).tasks);
  }

  /** Whatever tryDispatchBarrierPacket does: nothing, leave the task INITIALIZED, or dispatch it. */
  lemma TryKeeps(s: BState, t: nat, q: nat, segmentFree: bool)
    requires Inv(s) && CanTry(s, t, q)
    ensures Inv(DoTry(s, t, q, segmentFree))
  {
    hide Inv;
    if s.tasks[t].status.Rank() < Ready.Rank() {
      if Goes(s, t, segmentFree) {
        DispatchKeeps(s, t, q);
      } else {
        ParkKeeps(s, t);
      }
    }
  }
}
