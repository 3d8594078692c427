/** What appending packets to a queue, and processing its head, means for the packets behind a barrier. */
module BarrierQueues {
  import opened TaskStates
  import opened Bags
  import opened BarrierMode
  import opened BarrierInvariant
  import opened BarrierSteps

  // ---------------------------------------------------------------- barrier packets

  /** Some barrier among the packets waits for the signal. */
  ghost predicate Waits(packets: seq<Packet>, g: nat) {
    exists j :: 0 <= j < |packets| && packets[j].Barrier? && g in packets[j].waiting
  }

  /** Every signal asked for is waited for, and only the last packet has the bit and tells its completion. */
  lemma {:induction false} BarrierPacketsCover(sigs: seq<nat>, notify: bool)
    ensures forall g :: g in sigs ==> Waits(BarrierPackets(sigs, notify), g)
    ensures |BarrierPackets(sigs, notify)| > 0
    ensures forall j :: 0 <= j < |BarrierPackets(sigs, notify)| ==> BarrierPackets(sigs, notify)[j].Barrier?
    ensures forall j :: 0 <= j < |BarrierPackets(sigs, notify)| ==>
              BarrierPackets(sigs, notify)[j].notify == (notify && j == |BarrierPackets(sigs, notify)| - 1)
    ensures forall j :: 0 <= j < |BarrierPackets(sigs, notify)| ==>
              BarrierPackets(sigs, notify)[j].bit == (j == |BarrierPackets(sigs, notify)| - 1)
    decreases |sigs|
  {
    var packets := BarrierPackets(sigs, notify);
    if |sigs| <= MAX_DEPS {
      assert packets[0].waiting == sigs;
    } else {
      var rest := BarrierPackets(sigs[MAX_DEPS..], notify);
      BarrierPacketsCover(sigs[MAX_DEPS..], notify);
      assert packets[0].waiting == sigs[..MAX_DEPS];
      forall g | g in sigs
        ensures Waits(packets, g)
      {
        if g !in sigs[..MAX_DEPS] {
          assert sigs == sigs[..MAX_DEPS] + sigs[MAX_DEPS..];
          assert Waits(rest, g);
          var j :| 0 <= j < |rest| && rest[j].Barrier? && g in rest[j].waiting;
          assert packets[j + 1] == rest[j];
        }
      }
    }
  }

  lemma AwaitsAppended(queue: seq<Packet>, packets: seq<Packet>, tail: seq<Packet>, g: nat)
    requires Waits(packets, g)
    ensures Awaits(queue + packets + tail, |queue| + |packets|, g)
  {
    var j :| 0 <= j < |packets| && packets[j].Barrier? && g in packets[j].waiting;
    assert (queue + packets + tail)[|queue| + j] == packets[j];
  }

  // ---------------------------------------------------------------- appending

  lemma AwaitsPrefix(queue: seq<Packet>, more: seq<Packet>, n: nat, g: nat)
    requires Awaits(queue, n, g)
    ensures Awaits(queue + more, n, g)
  {
    var j :| 0 <= j < n && j < |queue| && queue[j].Barrier? && g in queue[j].waiting;
    assert (queue + more)[j] == queue[j];
  }

  lemma ShieldedPrefix(tasks: seq<BTask>, queue: seq<Packet>, more: seq<Packet>, n: nat, p: nat)
    requires Shielded(tasks, queue, n, p)
    ensures Shielded(tasks, queue + more, n, p)
  {
    if !tasks[p].finished { AwaitsPrefix(queue, more, n, tasks[p].signal); }
  }

  lemma SlotPrefix(tasks: seq<BTask>, queue: seq<Packet>, more: seq<Packet>, i: nat)
    requires i < |queue| && SlotOk(tasks, queue, i)
    ensures SlotOk(tasks, queue + more, i)
  {
    assert (queue + more)[i] == queue[i];
    if queue[i].Slot? {
      var preds := tasks[queue[i].task].preds;
      forall j | 0 <= j < |preds|
        ensures Shielded(tasks, queue + more, i, preds[j])
      {
        ShieldedPrefix(tasks, queue, more, i, preds[j]);
      }
    }
  }

  /** Appending barriers, and then perhaps slots that are shielded where they stand. */
  lemma QueueAppend(tasks: seq<BTask>, queue: seq<Packet>, more: seq<Packet>)
    requires QueueOk(tasks, queue)
    requires forall i :: |queue| <= i < |queue + more| ==> SlotOk(tasks, queue + more, i)
    ensures QueueOk(tasks, queue + more)
  {
    forall i | 0 <= i < |queue + more|
      ensures SlotOk(tasks, queue + more, i)
    {
      if i < |queue| {
        assert SlotOk(tasks, queue, i);
        SlotPrefix(tasks, queue, more, i);
      }
    }
  }

  // ---------------------------------------------------------------- removing the head

  lemma AwaitsPop(queue: seq<Packet>, n: nat, g: nat)
    requires 0 < n && 0 < |queue| && (queue[0].Barrier? ==> queue[0].waiting == []) && Awaits(queue, n, g)
    ensures Awaits(queue[1..], n - 1, g)
  {
    var j :| 0 <= j < n && j < |queue| && queue[j].Barrier? && g in queue[j].waiting;
    assert queue[1..][j - 1] == queue[j];
  }

  lemma ShieldedPop(tasks: seq<BTask>, queue: seq<Packet>, n: nat, p: nat)
    requires 0 < n && 0 < |queue| && (queue[0].Barrier? ==> queue[0].waiting == []) && Shielded(tasks, queue, n, p)
    ensures Shielded(tasks, queue[1..], n - 1, p)
  {
    if !tasks[p].finished { AwaitsPop(queue, n, tasks[p].signal); }
  }

  lemma QueuePop(tasks: seq<BTask>, queue: seq<Packet>)
    requires QueueOk(tasks, queue) && 0 < |queue| && (queue[0].Barrier? ==> queue[0].waiting == [])
    ensures QueueOk(tasks, queue[1..])
  {
    forall i | 0 <= i < |queue| - 1
      ensures SlotOk(tasks, queue[1..], i)
    {
      assert queue[1..][i] == queue[i + 1];
      assert SlotOk(tasks, queue, i + 1);
      if queue[i + 1].Slot? {
        var preds := tasks[queue[i + 1].task].preds;
        forall j | 0 <= j < |preds|
          ensures Shielded(tasks, queue[1..], i, preds[j])
        {
          ShieldedPop(tasks, queue, i + 1, preds[j]);
        }
      }
    }
  }

  // ---------------------------------------------------------------- seeing a signal at 0

  ghost predicate CanSee(queue: seq<Packet>, i: nat) {
    |queue| > 0 && queue[0].Barrier? && i < |queue[0].waiting|
  }

  /** The queue after its head barrier has seen waiting[i] at 0. */
  ghost function Seen(queue: seq<Packet>, i: nat): seq<Packet>
    requires CanSee(queue, i)
  {
    [queue[0].(waiting := queue[0].waiting[..i] + queue[0].waiting[i + 1..])] + queue[1..]
  }

  lemma AwaitsSeen(queue: seq<Packet>, i: nat, n: nat, g: nat)
    requires CanSee(queue, i) && queue[0].waiting[i] != g && Awaits(queue, n, g)
    ensures Awaits(Seen(queue, i), n, g)
  {
    var j :| 0 <= j < n && j < |queue| && queue[j].Barrier? && g in queue[j].waiting;
    if j == 0 {
      var k :| 0 <= k < |queue[0].waiting| && queue[0].waiting[k] == g;
      var w := queue[0].waiting[..i] + queue[0].waiting[i + 1..];
      assert if k < i then w[k] == g else w[k - 1] == g;
      assert Seen(queue, i)[0].waiting == w;
    } else {
      assert Seen(queue, i)[j] == queue[j];
    }
  }

  lemma ShieldedSeen(s: BState, queue: seq<Packet>, i: nat, n: nat, p: nat)
    requires Tasks(s) && SignalValues(s) && CanSee(queue, i) && queue[0].waiting[i] < |s.signalValue|
    requires s.signalValue[queue[0].waiting[i]] == 0 && Shielded(s.tasks, queue, n, p)
    ensures Shielded(s.tasks, Seen(queue, i), n, p)
  {
    if !s.tasks[p].finished {
      ZeroIsNotUnfinished(s, p, queue[0].waiting[i]);
      AwaitsSeen(queue, i, n, s.tasks[p].signal);
    }
  }

  lemma QueueSeen(s: BState, queue: seq<Packet>, i: nat)
    requires Tasks(s) && SignalValues(s) && CanSee(queue, i) && queue[0].waiting[i] < |s.signalValue|
    requires s.signalValue[queue[0].waiting[i]] == 0 && QueueOk(s.tasks, queue)
    ensures QueueOk(s.tasks, Seen(queue, i))
  {
    hide Tasks, SignalValues;
    forall k | 0 < k < |queue|
      ensures SlotOk(s.tasks, Seen(queue, i), k)
    {
      assert SlotOk(s.tasks, queue, k) && Seen(queue, i)[k] == queue[k];
      if queue[k].Slot? {
        var preds := s.tasks[queue[k].task].preds;
        forall j | 0 <= j < |preds|
          ensures Shielded(s.tasks, Seen(queue, i), k, preds[j])
        {
          ShieldedSeen(s, queue, i, k, preds[j]);
        }
      }
    }
  }
}
