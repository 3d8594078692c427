/**
  When a dispatch makes a cycle, and how to keep out of cycles: dispatch with a signal that no queued barrier lists.
  While there are as many signals as tasks every dispatch does.
 */
module BarrierGuard {
  import opened TaskStates
  import opened Bags
  import opened BarrierMode
  import opened BarrierInvariant
  import opened BarrierSteps
  import opened BarrierQueues
  import opened BarrierDispatch
  import opened BarrierBatch
  import opened BarrierSafety
  import opened BarrierProgress
  import opened BarrierLively
  import opened BarrierCycles

  // ---------------------------------------------------------------- what a dispatch adds

  /** Some barrier holds the task up that has still to see the signal at 0. */
  ghost predicate HeldUpSomewhere(s: BState, a: nat, g: nat) {
    exists q :: 0 <= q < |s.queues| && HeldUp(s.queues[q], a, g)
  }

  /** Task n is one that task t would depend on behind the barriers of queue q and of its own. */
  ghost predicate WouldDependOn(s: BState, t: nat, q: nat, n: nat)
    requires Dispatches(s, t, q)
  {
    && Outstanding(s.tasks, n)
    && (Waits(s.queues[q], s.tasks[n].signal) || n in Unexecuted(s.tasks, s.tasks[t].preds))
  }

  /**
    Before a dispatch: queue q has a barrier on the signal that task t is going to get, or a chain leads from what t
    would depend on to somebody held up by that signal.
   */
  ghost predicate ClosesCycle(s: BState, t: nat, q: nat)
    requires Dispatches(s, t, q)
  {
    || Waits(s.queues[q], s.freeSignals[0])
    || exists path :: Closing(s, t, q, path)
  }

  ghost predicate Closing(s: BState, t: nat, q: nat, path: seq<nat>)
    requires Dispatches(s, t, q)
  {
    && |path| > 0 && Chain(s, path) && WouldDependOn(s, t, q, path[0])
    && HeldUpSomewhere(s, path[|path| - 1], s.freeSignals[0])
  }

  lemma HeldUpIsListed(queue: seq<Packet>, a: nat, g: nat)
    requires HeldUp(queue, a, g)
    ensures Waits(queue, g)
  {
  }

  /** The packets of a dispatch list what they were asked to. */
  lemma DispatchLists(sigs: seq<nat>, t: nat, g: nat)
    ensures Waits(DispatchPackets(sigs, t), g) <==> g in sigs
  {
    var packets := DispatchPackets(sigs, t);
    if |sigs| > 0 {
      var row := BarrierPackets(sigs, false);
      BarrierPacketsOnly(sigs, false);
      BarrierPacketsCover(sigs, false);
      assert packets == row + [Slot(t)];
      WaitsAppend(row, [Slot(t)], g);
    }
  }

  lemma WaitsAppend(queue: seq<Packet>, more: seq<Packet>, g: nat)
    ensures Waits(queue + more, g) <==> Waits(queue, g) || Waits(more, g)
  {
    var all := queue + more;
    assert forall k :: 0 <= k < |queue| ==> all[k] == queue[k];
    assert forall k :: 0 <= k < |more| ==> all[|queue| + k] == more[k];
    if Waits(all, g) {
      var j :| 0 <= j < |all| && all[j].Barrier? && g in all[j].waiting;
      assert if j < |queue| then all[j] == queue[j] else all[j] == more[j - |queue|];
    }
  }

  /** Somebody else than the new task is held up by what held him up before. */
  lemma HeldUpUnchanged(s: BState, t: nat, q: nat, p: nat, a: nat, g: nat)
    requires Dispatches(s, t, q) && a != t && p < |s.queues|
    ensures HeldUp(DispatchNow(s, t, q).queues[p], a, g) <==> HeldUp(s.queues[p], a, g)
  {
    if p == q {
      var sigs := SignalsOf(s.tasks, Unexecuted(s.tasks, s.tasks[t].preds));
      var more := DispatchPackets(sigs, t);
      OnlyLastIsSlot(sigs, t);
      hide HeldUp, DispatchPackets, SignalsOf, Unexecuted;
      if HeldUp(s.queues[q], a, g) { HeldUpAppend(s.queues[q], more, a, g); }
      if HeldUp(s.queues[q] + more, a, g) { HeldUpBeforeAppend(s.queues[q], more, a, g); }
    }
  }

  /** The only slot of a new task is the last on its queue. */
  lemma NewIsHeldUp(queue: seq<Packet>, sigs: seq<nat>, t: nat, g: nat)
    requires forall i :: 0 <= i < |queue| ==> queue[i] != Slot(t)
    ensures HeldUp(queue + DispatchPackets(sigs, t), t, g) <==> Waits(queue, g) || g in sigs
  {
    var more := DispatchPackets(sigs, t);
    var all, n := queue + more, |queue| + |more| - 1;
    OnlyLastIsSlot(sigs, t);
    assert forall i :: 0 <= i < |more| ==> all[|queue| + i] == more[i];
    assert forall i :: 0 <= i < n ==> all[i] == if i < |queue| then queue[i] else more[i - |queue|];
    assert all[n] == Slot(t);
    assert HeldUp(all, t, g) <==> Awaits(all, n, g);
    assert Awaits(all, n, g) <==> Waits(all, g);
    WaitsAppend(queue, more, g);
    DispatchLists(sigs, t, g);
  }

  lemma NoSlotYet(s: BState, t: nat, p: nat)
    requires Tasks(s) && SlotsOnce(s) && t < |s.tasks| && s.tasks[t].status.Rank() < Ready.Rank() && p < |s.queues|
    ensures forall i :: 0 <= i < |s.queues[p]| ==> s.queues[p][i] != Slot(t)
  {
    hide SlotsOnce;
    forall i | 0 <= i < |s.queues[p]| && s.queues[p][i].Slot?
      ensures s.queues[p][i].task != t
    {
      SlotWaits(s, p, i);
    }
  }

  lemma NewHeldUpSomewhere(s: BState, t: nat, q: nat, g: nat)
    requires Tasks(s) && SlotsOnce(s) && Dispatches(s, t, q)
    ensures HeldUpSomewhere(DispatchNow(s, t, q), t, g) <==>
            Waits(s.queues[q], g) || g in SignalsOf(s.tasks, Unexecuted(s.tasks, s.tasks[t].preds))
  {
    var sigs := SignalsOf(s.tasks, Unexecuted(s.tasks, s.tasks[t].preds));
    forall p | 0 <= p < |s.queues|
      ensures p != q ==> !HeldUp(s.queues[p], t, g)
    {
      NoSlotYet(s, t, p);
    }
    NoSlotYet(s, t, q);
    hide Tasks, SlotsOnce, HeldUp, Waits, SignalsOf, Unexecuted, DispatchPackets;
    NewIsHeldUp(s.queues[q], sigs, t, g);
    var s' := DispatchNow(s, t, q);
    assert s'.queues[q] == s.queues[q] + DispatchPackets(sigs, t);
  }

  // ---------------------------------------------------------------- dependencies before and after

  /** The new task is outstanding then, with the signal it took, and was not before. */
  lemma NewIsOutstanding(s: BState, t: nat, q: nat)
    requires Tasks(s) && Dispatches(s, t, q)
    ensures !Outstanding(s.tasks, t) && Outstanding(DispatchNow(s, t, q).tasks, t)
    ensures DispatchNow(s, t, q).tasks[t].signal == s.freeSignals[0]
    ensures forall n :: 0 <= n < |s.tasks| && n != t ==> DispatchNow(s, t, q).tasks[n] == s.tasks[n]
    ensures |DispatchNow(s, t, q).tasks| == |s.tasks| && |DispatchNow(s, t, q).queues| == |s.queues|
  {
    assert TaskOk(s, t);
  }

  lemma OldDependence(s: BState, t: nat, q: nat, a: nat, n: nat)
    requires Tasks(s) && Dispatches(s, t, q) && a != t && n != t
    ensures DependsOn(DispatchNow(s, t, q), a, n) <==> DependsOn(s, a, n)
  {
    NewIsOutstanding(s, t, q);
    hide Tasks, Dispatches, DispatchNow, HeldUp;
    if n < |s.tasks| {
      forall p | 0 <= p < |s.queues|
        ensures HeldUp(DispatchNow(s, t, q).queues[p], a, s.tasks[n].signal) <==>
                HeldUp(s.queues[p], a, s.tasks[n].signal)
      {
        HeldUpUnchanged(s, t, q, p, a, s.tasks[n].signal);
      }
    }
  }

  lemma DependsOnNew(s: BState, t: nat, q: nat, a: nat)
    requires Tasks(s) && Dispatches(s, t, q) && a != t
    ensures DependsOn(DispatchNow(s, t, q), a, t) <==> HeldUpSomewhere(s, a, s.freeSignals[0])
  {
    NewIsOutstanding(s, t, q);
    hide Tasks, HeldUp, Unexecuted, SignalsOf, DispatchPackets, DispatchNow;
    forall p | 0 <= p < |s.queues|
      ensures HeldUp(DispatchNow(s, t, q).queues[p], a, s.freeSignals[0]) <==> HeldUp(s.queues[p], a, s.freeSignals[0])
    {
      HeldUpUnchanged(s, t, q, p, a, s.freeSignals[0]);
    }
  }

  /** Nobody owns a free signal, and whose signal is asked for is asked for himself. */
  lemma AskedFor(s: BState, t: nat, q: nat, n: nat)
    requires SignalPool(s) && Dispatches(s, t, q) && Outstanding(s.tasks, n)
    ensures var ids := Unexecuted(s.tasks, s.tasks[t].preds);
            s.freeSignals[0] !in SignalsOf(s.tasks, ids) &&
            (s.tasks[n].signal in SignalsOf(s.tasks, ids) <==> n in ids)
  {
    var ids := Unexecuted(s.tasks, s.tasks[t].preds);
    var sigs := SignalsOf(s.tasks, ids);
    FreeIsNotAsked(s, t, q);
    UnexecutedOwn(s, t, q);
    forall j | 0 <= j < |ids| && ids[j] != n
      ensures sigs[j] != s.tasks[n].signal
    {
      OwnersDiffer(s, ids[j], n);
    }
    hide SignalPool, Unexecuted;
    if n in ids {
      var j :| 0 <= j < |ids| && ids[j] == n;
      assert sigs[j] == s.tasks[n].signal;
    }
  }

  lemma FreeIsNotAsked(s: BState, t: nat, q: nat)
    requires SignalPool(s) && Dispatches(s, t, q)
    ensures s.freeSignals[0] !in SignalsOf(s.tasks, Unexecuted(s.tasks, s.tasks[t].preds))
  {
    var ids := Unexecuted(s.tasks, s.tasks[t].preds);
    UnexecutedOwn(s, t, q);
    forall j | 0 <= j < |ids|
      ensures SignalsOf(s.tasks, ids)[j] != s.freeSignals[0]
    {
      OwnedIsNotFree(s, ids[j]);
    }
  }

  lemma NewDependsOn(s: BState, t: nat, q: nat, n: nat)
    requires Tasks(s) && SignalPool(s) && SlotsOnce(s) && Dispatches(s, t, q) && n != t
    ensures DependsOn(DispatchNow(s, t, q), t, n) <==> WouldDependOn(s, t, q, n)
  {
    NewIsOutstanding(s, t, q);
    hide Tasks, SignalPool, SlotsOnce, HeldUp, Waits, SignalsOf, Unexecuted, DispatchPackets, DispatchNow;
    if n < |s.tasks| && Outstanding(s.tasks, n) {
      NewHeldUpSomewhere(s, t, q, s.tasks[n].signal);
      AskedFor(s, t, q, n);
    }
  }

  lemma NewDependsOnItself(s: BState, t: nat, q: nat)
    requires Tasks(s) && SignalPool(s) && SlotsOnce(s) && Dispatches(s, t, q)
    ensures DependsOn(DispatchNow(s, t, q), t, t) <==> Waits(s.queues[q], s.freeSignals[0])
  {
    NewIsOutstanding(s, t, q);
    hide Tasks, SignalPool, SlotsOnce, HeldUp, Waits, SignalsOf, Unexecuted, DispatchPackets, DispatchNow;
    NewHeldUpSomewhere(s, t, q, s.freeSignals[0]);
    FreeIsNotAsked(s, t, q);
  }

  // ---------------------------------------------------------------- when a dispatch makes a cycle

  lemma ChainWithoutNew(s: BState, t: nat, q: nat, path: seq<nat>)
    requires Tasks(s) && Dispatches(s, t, q) && t !in path
    ensures Chain(DispatchNow(s, t, q), path) <==> Chain(s, path)
  {
    forall i | 0 <= i < |path| - 1
      ensures DependsOn(DispatchNow(s, t, q), path[i], path[i + 1]) <==> DependsOn(s, path[i], path[i + 1])
    {
      OldDependence(s, t, q, path[i], path[i + 1]);
    }
    hide DependsOn, DispatchNow, Dispatches, Tasks;
  }

  /** Nobody depends on a task that has not been dispatched. */
  lemma NotInChain(s: BState, t: nat, path: seq<nat>)
    requires !Outstanding(s.tasks, t) && Chain(s, path) && |path| > 0 && path[0] != t
    ensures t !in path
  {
    forall i | 0 < i < |path|
      ensures path[i] != t
    {
      assert DependsOn(s, path[i - 1], path[i - 1 + 1]);
    }
  }

  lemma ClosingIsCycle(s: BState, t: nat, q: nat, path: seq<nat>)
    requires Tasks(s) && SignalPool(s) && SlotsOnce(s) && Dispatches(s, t, q) && Closing(s, t, q, path)
    ensures HasCycle(DispatchNow(s, t, q))
  {
    var s', last := DispatchNow(s, t, q), path[|path| - 1];
    NewIsOutstanding(s, t, q);
    NotInChain(s, t, path);
    assert last in path;
    ChainWithoutNew(s, t, q, path);
    NewDependsOn(s, t, q, path[0]);
    DependsOnNew(s, t, q, last);
    hide Tasks, SignalPool, SlotsOnce, Dispatches, DispatchNow, DependsOn, HeldUpSomewhere, WouldDependOn;
    var cycle := [t] + path;
    assert forall i :: 0 < i < |cycle| ==> cycle[i] == path[i - 1];
    assert Lasso(s', cycle, 0);
  }

  lemma OldCycleStays(s: BState, t: nat, q: nat, path: seq<nat>)
    requires Tasks(s) && Dispatches(s, t, q) && Lasso(s, path, 0)
    ensures HasCycle(DispatchNow(s, t, q))
  {
    NewIsOutstanding(s, t, q);
    assert path[0] != t;
    NotInChain(s, t, path);
    assert path[|path| - 1] in path;
    ChainWithoutNew(s, t, q, path);
    OldDependence(s, t, q, path[|path| - 1], path[0]);
    hide Tasks, Dispatches, DispatchNow, DependsOn, Chain;
    assert Lasso(DispatchNow(s, t, q), path, 0);
  }

  /** What leads from the new task back to it, up to where it comes to it first, was there before. */
  lemma {:induction false} BackToNew(s: BState, t: nat, q: nat, path: seq<nat>)
    requires Tasks(s) && SignalPool(s) && SlotsOnce(s) && Dispatches(s, t, q) && |path| > 0
    requires DependsOn(DispatchNow(s, t, q), t, path[0]) && Chain(DispatchNow(s, t, q), path)
    requires DependsOn(DispatchNow(s, t, q), path[|path| - 1], t)
    ensures ClosesCycle(s, t, q)
    decreases |path|
  {
    hide Tasks, SignalPool, SlotsOnce, DispatchNow, DependsOn, Waits, HeldUpSomewhere, WouldDependOn, PredsDispatched;
    if t in path {
      var i :| 0 <= i < |path| && path[i] == t;
      if i == 0 {
        NewDependsOnItself(s, t, q);
      } else {
        assert DependsOn(DispatchNow(s, t, q), path[i - 1], path[i - 1 + 1]);
        BackToNew(s, t, q, path[..i]);
      }
    } else {
      assert path[|path| - 1] in path && path[0] in path;
      ChainWithoutNew(s, t, q, path);
      NewDependsOn(s, t, q, path[0]);
      DependsOnNew(s, t, q, path[|path| - 1]);
      assert Closing(s, t, q, path);
    }
  }

  /** A cycle, turned so that it begins behind position k. */
  lemma Turned(s: BState, path: seq<nat>, k: nat) returns (rest: seq<nat>)
    requires Lasso(s, path, 0) && k < |path| && |path| > 1
    ensures |rest| > 0 && Chain(s, rest) && DependsOn(s, path[k], rest[0]) && DependsOn(s, rest[|rest| - 1], path[k])
  {
    hide DependsOn;
    var n := |path|;
    rest := path[k + 1..] + path[..k];
    assert forall i :: 0 <= i < n - k - 1 ==> rest[i] == path[k + 1 + i];
    assert forall i :: n - k - 1 <= i < n - 1 ==> rest[i] == path[i - (n - k - 1)];
    assert DependsOn(s, path[n - 1], path[0]);
    forall i | 0 <= i < |rest| - 1
      ensures DependsOn(s, rest[i], rest[i + 1])
    {
      if i < n - k - 2 {
        assert DependsOn(s, path[k + 1 + i], path[k + 1 + i + 1]);
      } else if i > n - k - 2 {
        assert DependsOn(s, path[i - (n - k - 1)], path[i - (n - k - 1) + 1]);
      }
    }
    if k + 1 < n { assert DependsOn(s, path[k], path[k + 1]); }
    if k > 0 { assert DependsOn(s, path[k - 1], path[k - 1 + 1]); }
  }

  lemma NewCycle(s: BState, t: nat, q: nat, path: seq<nat>)
    requires Tasks(s) && SignalPool(s) && SlotsOnce(s) && Dispatches(s, t, q) && Lasso(DispatchNow(s, t, q), path, 0)
    ensures HasCycle(s) || ClosesCycle(s, t, q)
  {
    hide Tasks, SignalPool, SlotsOnce, DispatchNow, DependsOn, Closing, Waits, PredsDispatched;
    if t !in path {
      ChainWithoutNew(s, t, q, path);
      assert path[|path| - 1] in path && path[0] in path;
      OldDependence(s, t, q, path[|path| - 1], path[0]);
      assert Lasso(s, path, 0);
    } else {
      var k :| 0 <= k < |path| && path[k] == t;
      if |path| == 1 {
        NewDependsOnItself(s, t, q);
      } else {
        var rest := Turned(DispatchNow(s, t, q), path, k);
        BackToNew(s, t, q, rest);
      }
    }
  }

  /** A dispatch leads to a state with a cycle if and only if there was one, or it closes one. */
  lemma CycleAfterDispatch(s: BState, t: nat, q: nat)
    requires Tasks(s) && SignalPool(s) && SlotsOnce(s) && Dispatches(s, t, q)
    ensures HasCycle(DispatchNow(s, t, q)) <==> HasCycle(s) || ClosesCycle(s, t, q)
  {
    hide Tasks, SignalPool, SlotsOnce, DispatchNow, Lasso, Closing, Waits, PredsDispatched;
    if HasCycle(DispatchNow(s, t, q)) {
      var path :| Lasso(DispatchNow(s, t, q), path, 0);
      NewCycle(s, t, q, path);
    }
    if HasCycle(s) {
      var path :| Lasso(s, path, 0);
      OldCycleStays(s, t, q, path);
    }
    if ClosesCycle(s, t, q) {
      if Waits(s.queues[q], s.freeSignals[0]) {
        SelfIsCycle(s, t, q);
      } else {
        var path :| Closing(s, t, q, path);
        ClosingIsCycle(s, t, q, path);
      }
    }
  }

  lemma SelfIsCycle(s: BState, t: nat, q: nat)
    requires Tasks(s) && SignalPool(s) && SlotsOnce(s) && Dispatches(s, t, q) && Waits(s.queues[q], s.freeSignals[0])
    ensures HasCycle(DispatchNow(s, t, q))
  {
    NewDependsOnItself(s, t, q);
    hide Tasks, SignalPool, SlotsOnce, DispatchNow, DependsOn, Waits;
    assert Lasso(DispatchNow(s, t, q), [t], 0);
  }

  lemma LaunchDispatches(s: BState, e: BEvent)
    requires Inv(s) && Enabled(s, e) && Launches(s, e)
    ensures e.TryDispatch? && Dispatches(s, e.task, e.q) && Step(s, e) == DispatchNow(s, e.task, e.q)
  {
  }

  /** Any other event leaves no cycle that was not there. */
  lemma CycleBefore(s: BState, e: BEvent)
    requires Inv(s) && Enabled(s, e) && !Launches(s, e) && HasCycle(Step(s, e))
    ensures HasCycle(s)
  {
    hide Inv, Enabled, Step, Launches, DependsOn;
    var path :| Lasso(Step(s, e), path, 0);
    forall i | 0 <= i < |path| - 1
      ensures DependsOn(s, path[i], path[i + 1])
    {
      DependedBefore(s, e, path[i], path[i + 1]);
    }
    DependedBefore(s, e, path[|path| - 1], path[0]);
    assert Lasso(s, path, 0);
  }

  /**
    In any run: the next event leads to a state with a cycle where there was none if and only if it is a dispatch
    that closes one, which can be told before it.
   */
  lemma CycleIff(s: BState, es: seq<BEvent>, e: BEvent)
    requires Initial(s) && Possible(s, es) && Enabled(Exec(s, es), e) && !HasCycle(Exec(s, es))
    ensures HasCycle(Step(Exec(s, es), e)) <==>
            Launches(Exec(s, es), e) && Dispatches(Exec(s, es), e.task, e.q) && ClosesCycle(Exec(s, es), e.task, e.q)
  {
    var s' := Exec(s, es);
    ReachedLively(s, es);
    hide Initial, Possible, Exec, HasCycle, ClosesCycle, Launches, Step, Enabled, SlotsOnce, SignalsBelow, Dispatches;
    if Launches(s', e) {
      LaunchDispatches(s', e);
      CycleAfterDispatch(s', e.task, e.q);
    } else if HasCycle(Step(s', e)) {
      CycleBefore(s', e);
    }
  }

  // ---------------------------------------------------------------- a guarded dispatch

  /** No barrier on any queue lists the signal. */
  ghost predicate Unlisted(s: BState, g: nat) {
    forall q {:trigger s.queues[q]} :: 0 <= q < |s.queues| ==> !Waits(s.queues[q], g)
  }

  /** Every dispatch of the run takes a signal that no barrier lists at that time. */
  ghost predicate Guarded(s: BState, es: seq<BEvent>)
    requires Possible(s, es)
    decreases |es|
  {
    |es| > 0 ==>
      && (Launches(s, es[0]) ==> Unlisted(s, s.freeSignals[0]))
      && Guarded(Step(s, es[0]), es[1..])
  }

  /** A signal that no barrier lists closes nothing. */
  lemma UnlistedClosesNothing(s: BState, t: nat, q: nat)
    requires Dispatches(s, t, q) && Unlisted(s, s.freeSignals[0])
    ensures !ClosesCycle(s, t, q)
  {
    hide Waits, HeldUp, Unexecuted;
    forall path | Closing(s, t, q, path)
      ensures false
    {
      var p :| 0 <= p < |s.queues| && HeldUp(s.queues[p], path[|path| - 1], s.freeSignals[0]);
      HeldUpIsListed(s.queues[p], path[|path| - 1], s.freeSignals[0]);
    }
  }

  lemma GuardedStep(s: BState, e: BEvent)
    requires Inv(s) && SlotsOnce(s) && Enabled(s, e) && !HasCycle(s)
    requires Launches(s, e) ==> Unlisted(s, s.freeSignals[0])
    ensures !HasCycle(Step(s, e))
  {
    hide Tasks, SignalPool, SignalValues, InFlight, Safe, Queues, Sinks, BatchOk, Peeks, CreatedOk, HasCycle,
      ClosesCycle, Launches, Step, Enabled, SlotsOnce, Dispatches, Unlisted;
    if Launches(s, e) {
      LaunchDispatches(s, e);
      UnlistedClosesNothing(s, e.task, e.q);
      CycleAfterDispatch(s, e.task, e.q);
    } else if HasCycle(Step(s, e)) {
      CycleBefore(s, e);
    }
  }

  /** In any run: one dispatch with a signal that no barrier lists makes no cycle, and neither does anything else. */
  lemma GuardedDispatchKeeps(s: BState, es: seq<BEvent>, e: BEvent)
    requires Initial(s) && Possible(s, es) && Enabled(Exec(s, es), e) && !HasCycle(Exec(s, es))
    requires Launches(Exec(s, es), e) ==> Unlisted(Exec(s, es), Exec(s, es).freeSignals[0])
    ensures !HasCycle(Step(Exec(s, es), e))
  {
    ReachedLively(s, es);
    hide Inv, Initial, Possible, Exec, HasCycle, Unlisted, Launches, Step, Enabled, SlotsOnce, SignalsBelow;
    GuardedStep(Exec(s, es), e);
  }

  lemma {:induction false} GuardedMakesNoCycle(s: BState, es: seq<BEvent>)
    requires Inv(s) && SlotsOnce(s) && Possible(s, es) && Guarded(s, es) && !HasCycle(s)
    ensures !HasCycle(Exec(s, es))
    decreases |es|
  {
    hide Inv, SlotsOnce, HasCycle, Unlisted;
    if |es| > 0 {
      StepKeeps(s, es[0]);
      StepSlots(s, es[0]);
      GuardedStep(s, es[0]);
      GuardedMakesNoCycle(Step(s, es[0]), es[1..]);
    }
  }

  lemma InitialHasNoCycle(s: BState)
    requires Initial(s)
    ensures !HasCycle(s)
  {
    forall path: seq<nat>
      ensures !Lasso(s, path, 0)
    {
    }
  }

  /** A run whose dispatches are all like that has no cycle, and devices always finish what it dispatched. */
  lemma GuardedRunsFinish(s: BState, es: seq<BEvent>)
    requires Initial(s) && Possible(s, es) && Guarded(s, es)
    ensures !HasCycle(Exec(s, es)) && AlwaysFinishes(Exec(s, es))
  {
    InitialHolds(s);
    InitialLively(s);
    InitialHasNoCycle(s);
    FinishesIffNoCycle(s, es);
    hide Inv, Initial, Possible, Exec, Guarded, HasCycle, AlwaysFinishes, SlotsOnce;
    GuardedMakesNoCycle(s, es);
  }

  // ---------------------------------------------------------------- as many signals as tasks

  ghost function Launched(t: BTask): nat {
    if t.status.Rank() >= Ready.Rank() then 1 else 0
  }

  /** The number of tasks that have been dispatched. */
  ghost function Count(s: BState): nat {
    Sum(s.tasks, Launched)
  }

  lemma {:induction false} CountBound(tasks: seq<BTask>)
    ensures Sum(tasks, Launched) <= |tasks|
  {
    if |tasks| > 0 { CountBound(tasks[..|tasks| - 1]); }
  }

  /** The pool begins with the signals nobody has had yet, in order. */
  ghost predicate Unused(s: BState) {
    && Count(s) <= s.maxSignals <= Count(s) + |s.freeSignals|
    && (forall i :: 0 <= i < s.maxSignals - Count(s) ==> s.freeSignals[i] == Count(s) + i)
    && SignalsBelow(s, Count(s))
  }

  lemma BelowIsUnlisted(s: BState, g: nat)
    requires SignalsBelow(s, g)
    ensures Unlisted(s, g)
  {
    forall q | 0 <= q < |s.queues|
      ensures !Waits(s.queues[q], g)
    {
      assert BarriersExist(g, s.queues[q]);
    }
  }

  lemma Widen(s: BState, bound: nat)
    requires SignalsBelow(s, bound)
    ensures SignalsBelow(s, bound + 1)
  {
    forall q | 0 <= q < |s.queues|
      ensures BarriersExist(bound + 1, s.queues[q])
    {
      assert BarriersExist(bound, s.queues[q]);
    }
  }

  lemma LaunchCounts(s: BState, e: BEvent)
    requires Inv(s) && Enabled(s, e) && Launches(s, e)
    ensures Count(Step(s, e)) == Count(s) + 1 && |Step(s, e).tasks| == |s.tasks|
    ensures Step(s, e).freeSignals == s.freeSignals[1..] && Step(s, e).maxSignals == s.maxSignals
  {
    LaunchDispatches(s, e);
    hide Inv, Unexecuted, SignalsOf, DispatchPackets, Enabled, Launches, Step;
    SumUpdate(s.tasks, e.task, Step(s, e).tasks[e.task], Launched);
  }

  lemma LaunchedSame(s: BState, e: BEvent, n: nat)
    requires Inv(s) && Enabled(s, e) && !Launches(s, e) && n < |s.tasks|
    ensures n < |Step(s, e).tasks| && Launched(Step(s, e).tasks[n]) == Launched(s.tasks[n])
  {
    hide Tasks, SignalPool, SignalValues, InFlight, Safe, Queues, Sinks, BatchOk, Peeks, CreatedOk, Step, Launches;
    StepAdvances(s, e);
    if e.MarkExecuted? || e.Reclaim? { MemberOwns(s); }
    assert Grows(s.tasks[n], Step(s, e).tasks[n]);
    if Step(s, e).tasks[n].status.Rank() >= Ready.Rank() { NoneLaunched(s, e, n); }
  }

  /** Only a new task is added, and it has not been dispatched. */
  lemma OthersAdd(s: BState, e: BEvent)
    requires Enabled(s, e) && !Launches(s, e)
    ensures var n := |s.tasks|; var tasks := Step(s, e).tasks;
            n <= |tasks| <= n + 1 && (|tasks| == n + 1 ==> Launched(tasks[n]) == 0)
    ensures Step(s, e).maxSignals == s.maxSignals && s.freeSignals <= Step(s, e).freeSignals
  {
    hide Drained, Unexecuted, SignalsOf, BarrierPackets, DispatchPackets;
  }

  lemma OthersCount(s: BState, e: BEvent)
    requires Inv(s) && Enabled(s, e) && !Launches(s, e)
    ensures Count(Step(s, e)) == Count(s)
  {
    hide Inv, Step, Enabled, Launches, Launched;
    var n, tasks := |s.tasks|, Step(s, e).tasks;
    OthersAdd(s, e);
    forall i | 0 <= i < n
      ensures Launched(tasks[..n][i]) == Launched(s.tasks[i])
    {
      LaunchedSame(s, e, i);
    }
    SumPointwise(tasks[..n], s.tasks, Launched);
    if |tasks| == n + 1 {
      assert tasks == tasks[..n] + [tasks[n]];
      SumAppend(tasks[..n], tasks[n], Launched);
    } else {
      assert tasks[..n] == tasks;
    }
  }

  lemma StepUnused(s: BState, e: BEvent)
    requires Inv(s) && Enabled(s, e) && Unused(s) && |Step(s, e).tasks| <= s.maxSignals
    ensures Unused(Step(s, e))
    ensures Launches(s, e) ==> s.freeSignals[0] == Count(s)
  {
    var n := Count(s);
    hide Inv, Enabled, Step, Launches, Count, SignalsBelow;
    if Launches(s, e) {
      LaunchCounts(s, e);
      CountLimit(Step(s, e));
      assert s.freeSignals[0] == n + 0;
      Widen(s, n);
      LaunchHasSignal(s, e);
      StepSignals(s, e, n + 1);
      forall i | 0 <= i < s.maxSignals - (n + 1)
        ensures Step(s, e).freeSignals[i] == n + 1 + i
      {
        assert s.freeSignals[i + 1] == n + (i + 1);
      }
    } else {
      OthersCount(s, e);
      OthersAdd(s, e);
      assert forall i :: 0 <= i < |s.freeSignals| ==> Step(s, e).freeSignals[i] == s.freeSignals[i];
      StepSignals(s, e, n);
    }
  }

  lemma CountLimit(s: BState)
    ensures Count(s) <= |s.tasks|
  {
    CountBound(s.tasks);
  }

  lemma LaunchHasSignal(s: BState, e: BEvent)
    requires Enabled(s, e) && Launches(s, e)
    ensures |s.freeSignals| > 0
  {
  }

  lemma InitialUnused(s: BState)
    requires Initial(s)
    ensures Unused(s)
  {
  }

  lemma {:induction false} TasksGrow(s: BState, es: seq<BEvent>)
    requires Inv(s) && Possible(s, es)
    ensures |s.tasks| <= |Exec(s, es).tasks|
  {
    RunAdvances(s, es);
  }

  lemma {:induction false} FewTasksGuarded(s: BState, es: seq<BEvent>)
    requires Inv(s) && Unused(s) && Possible(s, es) && |Exec(s, es).tasks| <= s.maxSignals
    ensures Guarded(s, es)
    decreases |es|
  {
    hide Inv, Unused, Unlisted, Launches;
    if |es| > 0 {
      StepKeeps(s, es[0]);
      TasksGrow(Step(s, es[0]), es[1..]);
      StepUnused(s, es[0]);
      UnusedIsUnlisted(s);
      StepSize(s, es[0]);
      FewTasksGuarded(Step(s, es[0]), es[1..]);
    }
  }

  lemma StepSize(s: BState, e: BEvent)
    requires Enabled(s, e)
    ensures Step(s, e).maxSignals == s.maxSignals
  {
  }

  lemma UnusedIsUnlisted(s: BState)
    requires Unused(s)
    ensures Unlisted(s, Count(s))
  {
    BelowIsUnlisted(s, Count(s));
  }

  /** With as many signals as tasks nothing ever blocks. */
  lemma FewTasksFinish(s: BState, es: seq<BEvent>)
    requires Initial(s) && Possible(s, es) && |Exec(s, es).tasks| <= s.maxSignals
    ensures !HasCycle(Exec(s, es)) && AlwaysFinishes(Exec(s, es))
  {
    InitialHolds(s);
    InitialUnused(s);
    hide Inv, Unused, Initial, Possible, Exec, Guarded, HasCycle, AlwaysFinishes;
    FewTasksGuarded(s, es);
    GuardedRunsFinish(s, es);
  }
}
