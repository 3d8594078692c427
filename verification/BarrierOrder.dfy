/** What the barrier bit is for: the queue's kernels in front of the barrier have finished when it is looked at. */
module BarrierOrder {
  import opened TaskStates
  import opened Bags
  import opened BarrierMode
  import opened BarrierInvariant
  import opened BarrierSteps
  import opened BarrierSafety
  import opened BarrierProgress
  import opened BarrierLively

  ghost predicate LaunchedFrom(s: BState, t: nat, q: nat) {
    t < |s.tasks| && s.tasks[t].started && s.tasks[t].queue == q
  }

  /** A task is launched once, and from one queue. */
  lemma StepLaunched(s: BState, e: BEvent, t: nat, q: nat)
    requires SlotsOnce(s) && Enabled(s, e) && LaunchedFrom(s, t, q)
    ensures LaunchedFrom(Step(s, e), t, q)
  {
    if e.Start? { StartSlots(s, e.q); }
    hide SlotsOnce, BarrierPackets, SignalsOf, Unexecuted, Looks, DispatchPackets, Record, PredsDispatched;
  }

  lemma {:induction false} RunLaunched(s: BState, es: seq<BEvent>, t: nat, q: nat)
    requires Inv(s) && Lively(s) && Possible(s, es) && LaunchedFrom(s, t, q)
    ensures LaunchedFrom(Exec(s, es), t, q)
    decreases |es|
  {
    if |es| > 0 {
      StepKeeps(s, es[0]);
      StepLively(s, es[0]);
      StepLaunched(s, es[0], t, q);
      hide Inv, Lively, LaunchedFrom;
      RunLaunched(Step(s, es[0]), es[1..], t, q);
    }
  }

  /** The event is the packet processor's, at the barrier at the head of queue q. */
  predicate AtBarrier(e: BEvent, q: nat) {
    e == BarrierDone(q) || (e.Observe? && e.q == q)
  }

  lemma Splits(s: BState, es: seq<BEvent>, k: nat)
    requires Possible(s, es) && k < |es|
    ensures Possible(s, es[..k]) && Enabled(Exec(s, es[..k]), es[k])
    ensures Possible(Step(Exec(s, es[..k]), es[k]), es[k + 1..])
    ensures Exec(Step(Exec(s, es[..k]), es[k]), es[k + 1..]) == Exec(s, es)
  {
    ExecSplit(s, es, k);
    assert es[k..][0] == es[k] && es[k..][1..] == es[k + 1..];
  }

  lemma StaysLaunched(s: BState, es: seq<BEvent>, k: nat, q: nat)
    requires Initial(s) && Possible(s, es) && k < |es| && es[k] == Start(q)
    ensures Possible(s, es[..k]) && CanStart(Exec(s, es[..k]), q)
    ensures LaunchedFrom(Exec(s, es), Exec(s, es[..k]).queues[q][0].task, q)
  {
    Splits(s, es, k);
    var s1 := Exec(s, es[..k]);
    ReachedLively(s, es[..k]);
    assert CanStart(s1, q) && LaunchedFrom(Step(s1, es[k]), s1.queues[q][0].task, q);
    hide Inv, Lively, Initial, Possible, Exec, CanStart, LaunchedFrom;
    StepKeeps(s1, es[k]);
    StepLively(s1, es[k]);
    RunLaunched(Step(s1, es[k]), es[k + 1..], s1.queues[q][0].task, q);
  }

  /**
    When the processor looks at a barrier with the barrier bit, the kernel launched from that queue by any earlier
    event has finished.
   */
  lemma BarrierBitWaits(s: BState, es: seq<BEvent>, k: nat, j: nat, q: nat)
    requires Initial(s) && Possible(s, es) && k < j < |es| && es[k] == Start(q) && AtBarrier(es[j], q)
    ensures Possible(s, es[..k]) && CanStart(Exec(s, es[..k]), q)
    ensures Possible(s, es[..j]) && Looks(Exec(s, es[..j]), q)
    ensures Exec(s, es[..j]).queues[q][0].bit ==>
              Finished(Exec(s, es[..j]).tasks, Exec(s, es[..k]).queues[q][0].task)
  {
    Splits(s, es, j);
    assert es[..j][..k] == es[..k] && es[..j][k] == es[k];
    hide Initial, Possible, Exec;
    StaysLaunched(s, es[..j], k, q);
  }
}
