/**
  When a signal is returned, and given to a task behind a barrier that has still to see it at 0, the barrier waits
  for the new task.  Devices finish what has been dispatched if and only if nobody waits for himself that way.
 */
module BarrierCycles {
  import opened TaskStates
  import opened Bags
  import opened BarrierMode
  import opened BarrierInvariant
  import opened BarrierSteps
  import opened BarrierQueues
  import opened BarrierDispatch
  import opened BarrierBatch
  import opened BarrierSafety
  import opened BarrierProgress
  import opened BarrierLively

  // ---------------------------------------------------------------- who waits for whom

  /** The task's slot stands behind a barrier that has still to see the signal at 0. */
  ghost predicate HeldUp(queue: seq<Packet>, a: nat, g: nat) {
    exists i :: 0 <= i < |queue| && queue[i] == Slot(a) && Awaits(queue, i, g)
  }

  /** Task n has been dispatched and has not finished. */
  ghost predicate Outstanding(tasks: seq<BTask>, n: nat) {
    n < |tasks| && Owns(tasks[n]) && !tasks[n].finished
  }

  /** The slot of task a stands behind a barrier that lists the signal of task n, which has not finished. */
  ghost predicate DependsOn(s: BState, a: nat, n: nat) {
    Outstanding(s.tasks, n) && exists q :: 0 <= q < |s.queues| && HeldUp(s.queues[q], a, s.tasks[n].signal)
  }

  /** A set of tasks each of which depends on another, or itself. */
  ghost predicate Knot(s: BState, w: set<nat>) {
    forall a :: a in w ==> DependsOnSome(s, a, w)
  }

  ghost predicate DependsOnSome(s: BState, a: nat, w: set<nat>) {
    exists n :: n in w && DependsOn(s, a, n)
  }

  ghost predicate Chain(s: BState, path: seq<nat>) {
    forall i :: 0 <= i < |path| - 1 ==> DependsOn(s, path[i], path[i + 1])
  }

  /** A chain of dependencies that leads back to its own position k. */
  ghost predicate Lasso(s: BState, path: seq<nat>, k: nat) {
    k < |path| && Chain(s, path) && DependsOn(s, path[|path| - 1], path[k])
  }

  ghost predicate HasCycle(s: BState) {
    exists path :: Lasso(s, path, 0)
  }

  /** Following dependencies from task a can lead to a cycle. */
  ghost predicate LeadsToCycle(s: BState, a: nat) {
    exists path, k :: Lasso(s, path, k) && path[0] == a
  }

  /**
    A task that waits to start depends on every task required at its launch that has not finished; but not on those
    alone.
   */
  lemma DependsOnPredecessors(s: BState, es: seq<BEvent>, k: nat, a: nat, p: nat)
    requires Initial(s) && Possible(s, es) && Makes(s, es, k, a) && WaitsToStart(Exec(s, es).tasks, a)
    requires p in es[k].preds && !Finished(Exec(s, es).tasks, p)
    ensures DependsOn(Exec(s, es), a, p)
  {
    ReachedLively(s, es);
    TaskIsAsLaunched(s, es, k, a);
    hide Initial, Possible, Exec;
    DependsOnUnfinished(Exec(s, es), a, p);
  }

  lemma DependsOnUnfinished(s: BState, a: nat, p: nat)
    requires Tasks(s) && Queues(s) && SlotsOnce(s) && WaitsToStart(s.tasks, a)
    requires p in s.tasks[a].preds && !Finished(s.tasks, p)
    ensures DependsOn(s, a, p)
  {
    var q, i := SlotSomewhere(s, a);
    hide SlotsOnce;
    assert QueueOk(s.tasks, s.queues[q]);
    assert SlotOk(s.tasks, s.queues[q], i);
    var j :| 0 <= j < |s.tasks[a].preds| && s.tasks[a].preds[j] == p;
    assert Shielded(s.tasks, s.queues[q], i, s.tasks[a].preds[j]);
    assert TaskOk(s, p);
    assert HeldUp(s.queues[q], a, s.tasks[p].signal);
  }

  // ---------------------------------------------------------------- knots and cycles

  lemma LassoIsKnot(s: BState, path: seq<nat>, k: nat)
    requires Lasso(s, path, k)
    ensures Knot(s, ToSet(path))
  {
    forall a | a in ToSet(path)
      ensures DependsOnSome(s, a, ToSet(path))
    {
      var i :| 0 <= i < |path| && path[i] == a;
      var n := if i < |path| - 1 then path[i + 1] else path[k];
      assert n in ToSet(path) && DependsOn(s, a, n);
    }
  }

  /** From any member of a knot one can go on until a task comes up again. */
  lemma {:induction false} KnotHasLasso(s: BState, w: set<nat>, path: seq<nat>) returns (whole: seq<nat>, k: nat)
    requires Knot(s, w) && |path| > 0 && ToSet(path) <= w && Chain(s, path)
    ensures Lasso(s, whole, k) && whole[0] == path[0]
    decreases w - ToSet(path)
  {
    hide DependsOn;
    var last := path[|path| - 1];
    assert last in ToSet(path);
    assert DependsOnSome(s, last, w);
    var n :| n in w && DependsOn(s, last, n);
    if n in path {
      k :| 0 <= k < |path| && path[k] == n;
      whole := path;
    } else {
      assert ToSet(path + [n]) == ToSet(path) + {n};
      assert n in w - ToSet(path) && n !in w - ToSet(path + [n]);
      whole, k := KnotHasLasso(s, w, path + [n]);
    }
  }

  lemma LassoHasCycle(s: BState, path: seq<nat>, k: nat) returns (cycle: seq<nat>)
    requires Lasso(s, path, k)
    ensures Lasso(s, cycle, 0)
  {
    hide DependsOn;
    cycle := path[k..];
    assert forall i :: 0 <= i < |cycle| ==> cycle[i] == path[k + i];
  }

  lemma KnotHasCycle(s: BState, w: set<nat>, a: nat)
    requires Knot(s, w) && a in w
    ensures LeadsToCycle(s, a) && HasCycle(s)
  {
    hide Knot, Lasso;
    assert ToSet([a]) == {a} && Chain(s, [a]);
    var path, k := KnotHasLasso(s, w, [a]);
    var cycle := LassoHasCycle(s, path, k);
  }

  // ---------------------------------------------------------------- a knot stays, whatever happens

  /** Who is held up keeps its slot, behind the same barrier. */
  lemma HeldUpSeen(queue: seq<Packet>, k: nat, a: nat, g: nat)
    requires CanSee(queue, k) && queue[0].waiting[k] != g && HeldUp(queue, a, g)
    ensures HeldUp(Seen(queue, k), a, g)
  {
    var i :| 0 <= i < |queue| && queue[i] == Slot(a) && Awaits(queue, i, g);
    AwaitsSeen(queue, k, i, g);
    assert i > 0 && Seen(queue, k)[i] == queue[i];
  }

  lemma HeldUpPop(queue: seq<Packet>, a: nat, g: nat)
    requires 0 < |queue| && (queue[0].Barrier? ==> queue[0].waiting == []) && HeldUp(queue, a, g)
    ensures HeldUp(queue[1..], a, g)
  {
    var i :| 0 <= i < |queue| && queue[i] == Slot(a) && Awaits(queue, i, g);
    AwaitsPop(queue, i, g);
    assert queue[1..][i - 1] == Slot(a);
  }

  lemma HeldUpAppend(queue: seq<Packet>, more: seq<Packet>, a: nat, g: nat)
    requires HeldUp(queue, a, g)
    ensures HeldUp(queue + more, a, g)
  {
    var i :| 0 <= i < |queue| && queue[i] == Slot(a) && Awaits(queue, i, g);
    AwaitsPrefix(queue, more, i, g);
    assert (queue + more)[i] == Slot(a);
  }

  lemma HeldUpStays(s: BState, e: BEvent, q: nat, a: nat, g: nat)
    requires Enabled(s, e) && q < |s.queues| && HeldUp(s.queues[q], a, g)
    requires g < |s.signalValue| && s.signalValue[g] != 0
    ensures q < |Step(s, e).queues| && HeldUp(Step(s, e).queues[q], a, g)
  {
    hide HeldUp, Drained, Unexecuted, SignalsOf, BarrierPackets, DispatchPackets;
    var queue := s.queues[q];
    match e
    case Observe(p, k) => if p == q { HeldUpSeen(queue, k, a, g); }
    case BarrierDone(p) => if p == q { HeldUpPop(queue, a, g); }
    case Start(p) => if p == q { HeldUpPop(queue, a, g); }
    case TryDispatch(t, p, free) =>
      if p == q && Goes(s, t, free) {
        HeldUpAppend(queue, DispatchPackets(SignalsOf(s.tasks, Unexecuted(s.tasks, s.tasks[t].preds)), t), a, g);
      }
    case EnqueueBatch(p) =>
      if p == q { HeldUpAppend(queue, BarrierPackets(SignalsOf(s.tasks, s.batch.sinks), true), a, g); }
    case _ =>
  }

  /** Who is held up is not at the head of any queue, and has not started. */
  lemma HeldUpWaits(s: BState, a: nat, n: nat)
    requires SlotsOnce(s) && DependsOn(s, a, n)
    ensures WaitsToStart(s.tasks, a)
    ensures forall p :: 0 <= p < |s.queues| && |s.queues[p]| > 0 && s.queues[p][0].Slot? ==> s.queues[p][0].task != a
  {
    hide SlotsOnce, WaitsToStart;
    var q :| 0 <= q < |s.queues| && HeldUp(s.queues[q], a, s.tasks[n].signal);
    var i :| 0 <= i < |s.queues[q]| && s.queues[q][i] == Slot(a) && Awaits(s.queues[q], i, s.tasks[n].signal);
    SlotWaits(s, q, i);
    forall p | 0 <= p < |s.queues| && |s.queues[p]| > 0 && s.queues[p][0].Slot?
      ensures s.queues[p][0].task != a
    {
      SlotIsElsewhere(s, q, i, p);
    }
  }

  /** Only its own slot starts a task, and only a task that has started finishes. */
  lemma StaysWaiting(s: BState, e: BEvent, n: nat)
    requires Enabled(s, e) && n < |s.tasks| && !s.tasks[n].started && !s.tasks[n].finished
    requires e.Start? ==> s.queues[e.q][0].task != n
    ensures n < |Step(s, e).tasks| && !Step(s, e).tasks[n].started && !Step(s, e).tasks[n].finished
  {
  }

  lemma StillOwns(s: BState, s': BState, n: nat)
    requires Tasks(s') && AllGrow(s.tasks, s'.tasks) && n < |s.tasks| && Owns(s.tasks[n]) && !s'.tasks[n].finished
    ensures Owns(s'.tasks[n]) && s'.tasks[n].signal == s.tasks[n].signal
  {
    assert Grows(s.tasks[n], s'.tasks[n]) && TaskOk(s', n);
  }

  /** A task that is held up neither starts nor finishes, and keeps its signal. */
  lemma OutstandingStays(s: BState, e: BEvent, n: nat, m: nat)
    requires Inv(s) && SlotsOnce(s) && Enabled(s, e) && Outstanding(s.tasks, n) && DependsOn(s, n, m)
    ensures Outstanding(Step(s, e).tasks, n) && Step(s, e).tasks[n].signal == s.tasks[n].signal
  {
    hide Tasks, SignalPool, SignalValues, InFlight, Safe, Queues, Sinks, BatchOk, Peeks, CreatedOk, SlotsOnce, Step;
    HeldUpWaits(s, n, m);
    StepKeeps(s, e);
    StepAdvances(s, e);
    StaysWaiting(s, e, n);
    StillOwns(s, Step(s, e), n);
  }

  lemma DependenceStays(s: BState, e: BEvent, a: nat, n: nat, m: nat)
    requires Inv(s) && SlotsOnce(s) && Enabled(s, e) && DependsOn(s, a, n) && DependsOn(s, n, m)
    ensures DependsOn(Step(s, e), a, n)
  {
    hide SlotsOnce, Step, Enabled, HeldUp;
    SignalIsUp(s, n);
    hide Inv;
    OutstandingStays(s, e, n, m);
    var q :| 0 <= q < |s.queues| && HeldUp(s.queues[q], a, s.tasks[n].signal);
    HeldUpStays(s, e, q, a, s.tasks[n].signal);
  }

  lemma KnotStays(s: BState, e: BEvent, w: set<nat>)
    requires Inv(s) && SlotsOnce(s) && Enabled(s, e) && Knot(s, w)
    ensures Knot(Step(s, e), w)
  {
    hide Inv, SlotsOnce, Step, Enabled, DependsOn;
    forall a | a in w
      ensures DependsOnSome(Step(s, e), a, w)
    {
      assert DependsOnSome(s, a, w);
      var n :| n in w && DependsOn(s, a, n);
      assert DependsOnSome(s, n, w);
      var m :| m in w && DependsOn(s, n, m);
      DependenceStays(s, e, a, n, m);
    }
  }

  lemma {:induction false} KnotStaysForever(s: BState, es: seq<BEvent>, w: set<nat>)
    requires Inv(s) && SlotsOnce(s) && Possible(s, es) && Knot(s, w)
    ensures Knot(Exec(s, es), w) && SlotsOnce(Exec(s, es))
    decreases |es|
  {
    hide Inv, SlotsOnce, Knot;
    if |es| > 0 {
      StepKeeps(s, es[0]);
      StepSlots(s, es[0]);
      KnotStays(s, es[0], w);
      KnotStaysForever(Step(s, es[0]), es[1..], w);
    }
  }

  lemma KnotWaits(s: BState, w: set<nat>, a: nat)
    requires SlotsOnce(s) && Knot(s, w) && a in w
    ensures WaitsToStart(s.tasks, a)
  {
    hide SlotsOnce, DependsOn, WaitsToStart;
    assert DependsOnSome(s, a, w);
    var n :| n in w && DependsOn(s, a, n);
    HeldUpWaits(s, a, n);
  }

  // ---------------------------------------------------------------- no new knots without a dispatch

  lemma HeldUpBeforeSeen(queue: seq<Packet>, k: nat, a: nat, g: nat)
    requires CanSee(queue, k) && HeldUp(Seen(queue, k), a, g)
    ensures HeldUp(queue, a, g)
  {
    var queue' := Seen(queue, k);
    var i :| 0 <= i < |queue'| && queue'[i] == Slot(a) && Awaits(queue', i, g);
    var j :| 0 <= j < i && queue'[j].Barrier? && g in queue'[j].waiting;
    assert queue[i] == Slot(a);
    assert g in queue[j].waiting;
    assert Awaits(queue, i, g);
  }

  lemma HeldUpBeforePop(queue: seq<Packet>, a: nat, g: nat)
    requires 0 < |queue| && HeldUp(queue[1..], a, g)
    ensures HeldUp(queue, a, g)
  {
    var queue' := queue[1..];
    var i :| 0 <= i < |queue'| && queue'[i] == Slot(a) && Awaits(queue', i, g);
    var j :| 0 <= j < i && queue'[j].Barrier? && g in queue'[j].waiting;
    assert queue[i + 1] == Slot(a) && queue[j + 1] == queue'[j];
    assert Awaits(queue, i + 1, g);
  }

  /** Packets put behind a slot do not hold it up. */
  lemma HeldUpBeforeAppend(queue: seq<Packet>, more: seq<Packet>, a: nat, g: nat)
    requires HeldUp(queue + more, a, g) && forall i :: 0 <= i < |more| ==> more[i] != Slot(a)
    ensures HeldUp(queue, a, g)
  {
    var queue' := queue + more;
    assert forall k :: |queue| <= k < |queue'| ==> queue'[k] == more[k - |queue|];
    var i :| 0 <= i < |queue'| && queue'[i] == Slot(a) && Awaits(queue', i, g);
    var j :| 0 <= j < i && queue'[j].Barrier? && g in queue'[j].waiting;
    assert queue[i] == Slot(a) && queue[j] == queue'[j];
    assert Awaits(queue, i, g);
  }

  lemma HeldUpBefore(s: BState, e: BEvent, q: nat, a: nat, g: nat)
    requires Enabled(s, e) && !Launches(s, e) && q < |Step(s, e).queues| && HeldUp(Step(s, e).queues[q], a, g)
    ensures q < |s.queues| && HeldUp(s.queues[q], a, g)
  {
    hide HeldUp, Drained, Unexecuted, SignalsOf, BarrierPackets, DispatchPackets;
    var queue := s.queues[q];
    match e
    case Observe(p, k) => if p == q { HeldUpBeforeSeen(queue, k, a, g); }
    case BarrierDone(p) => if p == q { HeldUpBeforePop(queue, a, g); }
    case Start(p) => if p == q { HeldUpBeforePop(queue, a, g); }
    case EnqueueBatch(p) =>
      if p == q {
        BarrierPacketsCover(SignalsOf(s.tasks, s.batch.sinks), true);
        HeldUpBeforeAppend(queue, BarrierPackets(SignalsOf(s.tasks, s.batch.sinks), true), a, g);
      }
    case _ =>
  }

  /** Another event than its dispatch does not make a task dispatched. */
  lemma NoneLaunched(s: BState, e: BEvent, n: nat)
    requires Enabled(s, e) && !Launches(s, e)
    requires e.MarkExecuted? || e.Reclaim? ==> Owns(s.tasks[s.batch.members[s.batch.i]])
    requires n < |Step(s, e).tasks| && Step(s, e).tasks[n].status.Rank() >= Ready.Rank()
    ensures n < |s.tasks| && s.tasks[n].status.Rank() >= Ready.Rank()
  {
    hide Drained, Unexecuted, SignalsOf, BarrierPackets, DispatchPackets;
  }

  /** Whoever is outstanding then was so before, with the same signal. */
  lemma OutstandingBefore(s: BState, e: BEvent, n: nat)
    requires Inv(s) && Enabled(s, e) && !Launches(s, e) && Outstanding(Step(s, e).tasks, n)
    ensures Outstanding(s.tasks, n) && s.tasks[n].signal == Step(s, e).tasks[n].signal
  {
    hide Tasks, SignalPool, SignalValues, InFlight, Safe, Queues, Sinks, BatchOk, Peeks, CreatedOk, Step, Launches;
    StepAdvances(s, e);
    if e.MarkExecuted? || e.Reclaim? { MemberOwns(s); }
    NoneLaunched(s, e, n);
    assert Grows(s.tasks[n], Step(s, e).tasks[n]);
  }

  lemma DependedBefore(s: BState, e: BEvent, a: nat, n: nat)
    requires Inv(s) && Enabled(s, e) && !Launches(s, e) && DependsOn(Step(s, e), a, n)
    ensures DependsOn(s, a, n)
  {
    hide Inv, Step, Enabled, HeldUp, Launches;
    OutstandingBefore(s, e, n);
    var q :| 0 <= q < |Step(s, e).queues| && HeldUp(Step(s, e).queues[q], a, Step(s, e).tasks[n].signal);
    HeldUpBefore(s, e, q, a, s.tasks[n].signal);
  }

  lemma KnotBefore(s: BState, e: BEvent, w: set<nat>)
    requires Inv(s) && Enabled(s, e) && !Launches(s, e) && Knot(Step(s, e), w)
    ensures Knot(s, w)
  {
    hide Inv, Step, Enabled, Launches, DependsOn;
    forall a | a in w
      ensures DependsOnSome(s, a, w)
    {
      assert DependsOnSome(Step(s, e), a, w);
      var n :| n in w && DependsOn(Step(s, e), a, n);
      DependedBefore(s, e, a, n);
    }
  }

  lemma {:induction false} KnotBeforeRun(s: BState, es: seq<BEvent>, w: set<nat>)
    requires Inv(s) && DeviceRun(s, es) && Knot(Exec(s, es), w)
    ensures Knot(s, w)
    decreases |es|
  {
    hide Inv, Knot;
    if |es| > 0 {
      StepKeeps(s, es[0]);
      assert forall i :: 0 <= i < |es[1..]| ==> es[1..][i] == es[i + 1];
      KnotBeforeRun(Step(s, es[0]), es[1..], w);
      KnotBefore(s, es[0], w);
    }
  }

  // ---------------------------------------------------------------- devices settle with knots only

  ghost function AllOutstanding(tasks: seq<BTask>): set<nat> {
    set n | 0 <= n < |tasks| && Outstanding(tasks, n)
  }

  lemma HeadHoldsUp(s: BState, q: nat, i: nat, a: nat, m: nat)
    requires HeadWaitsFor(s, q, m) && i < |s.queues[q]| && s.queues[q][i] == Slot(a)
    ensures DependsOn(s, a, m)
  {
    assert Awaits(s.queues[q], i, s.tasks[m].signal);
    assert HeldUp(s.queues[q], a, s.tasks[m].signal);
  }

  /** A task that has not finished lets a device take a step, or depends on another. */
  lemma TaskMovesOrWaits(s: BState, n: nat) returns (e: BEvent, m: nat)
    requires Inv(s) && Lively(s) && Outstanding(s.tasks, n)
    ensures (NextStep(e) && Enabled(s, e)) || DependsOn(s, n, m)
  {
    hide Tasks, SignalPool, SignalValues, InFlight, Safe, Queues, Sinks, BatchOk, Peeks, CreatedOk, Enabled, SlotsOnce,
      SignalsBelow, NextStep, HeadWaitsFor, DependsOn;
    m := 0;
    if s.tasks[n].status == Ready || s.tasks[n].started {
      e := TaskMoves(s, n);
    } else {
      var q, i := SlotSomewhere(s, n);
      e, m := HeadMoves(s, q);
      if !(NextStep(e) && Enabled(s, e)) {
        HeadHoldsUp(s, q, i, n, m);
      }
    }
  }

  lemma SettledIsKnot(s: BState)
    requires Inv(s) && Lively(s) && Settled(s)
    ensures Knot(s, AllOutstanding(s.tasks))
  {
    hide Inv, Lively, Enabled, NextStep;
    var w := AllOutstanding(s.tasks);
    forall n | n in w
      ensures DependsOnSome(s, n, w)
    {
      var e, m := TaskMovesOrWaits(s, n);
      assert DependsOn(s, n, m);
      assert m in w;
    }
  }

  // ---------------------------------------------------------------- the exact condition

  /** Every dispatched task has finished. */
  ghost predicate AllFinished(tasks: seq<BTask>) {
    forall n :: 0 <= n < |tasks| && tasks[n].status.Rank() >= Ready.Rank() ==> tasks[n].finished
  }

  /** However devices go about it, in the end all that was dispatched has finished. */
  ghost predicate AlwaysFinishes(s: BState) {
    forall es :: DeviceRun(s, es) && Settled(Exec(s, es)) ==> AllFinished(Exec(s, es).tasks)
  }

  /** The same of one task. */
  ghost predicate AlwaysFinishesTask(s: BState, a: nat) {
    forall es :: DeviceRun(s, es) && Settled(Exec(s, es)) ==> Finished(Exec(s, es).tasks, a)
  }

  lemma UnfinishedIsOutstanding(s: BState, n: nat)
    requires Tasks(s) && n < |s.tasks| && s.tasks[n].status.Rank() >= Ready.Rank() && !s.tasks[n].finished
    ensures n in AllOutstanding(s.tasks)
  {
    assert TaskOk(s, n);
  }

  /** Whoever has not finished when devices settle was led to a cycle by what it depended on all along. */
  lemma UnfinishedLeadsToCycle(s: BState, es: seq<BEvent>, n: nat)
    requires Inv(s) && Lively(s) && DeviceRun(s, es) && Settled(Exec(s, es)) && n < |Exec(s, es).tasks|
    requires Exec(s, es).tasks[n].status.Rank() >= Ready.Rank() && !Exec(s, es).tasks[n].finished
    ensures LeadsToCycle(s, n) && HasCycle(s)
  {
    var w := AllOutstanding(Exec(s, es).tasks);
    RunLively(s, es);
    UnfinishedIsOutstanding(Exec(s, es), n);
    hide Inv, Lively, Possible, Exec, Knot, LeadsToCycle, HasCycle;
    SettledIsKnot(Exec(s, es));
    KnotBeforeRun(s, es, w);
    KnotHasCycle(s, w, n);
  }

  /** Whoever is led to a cycle never starts, whatever happens. */
  lemma CycleHoldsUp(s: BState, es: seq<BEvent>, a: nat)
    requires Inv(s) && Lively(s) && Possible(s, es) && LeadsToCycle(s, a)
    ensures WaitsToStart(Exec(s, es).tasks, a)
  {
    hide Inv, SlotsOnce, SignalsBelow, Possible, Exec, Knot, WaitsToStart;
    var path, k :| Lasso(s, path, k) && path[0] == a;
    LassoIsKnot(s, path, k);
    KnotStaysForever(s, es, ToSet(path));
    KnotWaits(Exec(s, es), ToSet(path), a);
  }

  /** Whatever runs, none of a cycle starts; but devices settle. */
  lemma CycleIsNotFinished(s: BState, a: nat) returns (es: seq<BEvent>)
    requires Inv(s) && Lively(s) && LeadsToCycle(s, a)
    ensures DeviceRun(s, es) && Settled(Exec(s, es)) && WaitsToStart(Exec(s, es).tasks, a)
    ensures !Finished(Exec(s, es).tasks, a) && !AllFinished(Exec(s, es).tasks)
  {
    es := RunToEnd(s);
    RunKeeps(s, es);
    hide Lively, Settled, LeadsToCycle, Exec, Possible;
    CycleHoldsUp(s, es, a);
    assert TaskOk(Exec(s, es), a);
  }

  /**
    From any reachable state, devices left to themselves stop within as many steps as there is work; and every
    dispatched task has finished then, in whatever order they went, if and only if no task depends on itself.
   */
  lemma FinishesIffNoCycle(s: BState, es: seq<BEvent>)
    requires Initial(s) && Possible(s, es)
    ensures forall run :: DeviceRun(Exec(s, es), run) ==> |run| <= Work(Exec(s, es))
    ensures AlwaysFinishes(Exec(s, es)) <==> !HasCycle(Exec(s, es))
  {
    var s' := Exec(s, es);
    ReachedLively(s, es);
    hide Inv, Lively, Work, DeviceRun, Settled, Initial;
    forall run | DeviceRun(s', run)
      ensures |run| <= Work(s')
    {
      DeviceRunWorks(s', run);
    }
    if HasCycle(s') {
      var path :| Lasso(s', path, 0);
      assert LeadsToCycle(s', path[0]);
      var run := CycleIsNotFinished(s', path[0]);
    } else {
      NoCycleFinishes(s');
    }
  }

  lemma NoCycleFinishes(s: BState)
    requires Inv(s) && Lively(s) && !HasCycle(s)
    ensures AlwaysFinishes(s)
  {
    hide Inv, Lively, Settled, HasCycle, LeadsToCycle;
    forall run, n | DeviceRun(s, run) && Settled(Exec(s, run)) && 0 <= n < |Exec(s, run).tasks| &&
                    Exec(s, run).tasks[n].status.Rank() >= Ready.Rank()
      ensures Exec(s, run).tasks[n].finished
    {
      if !Exec(s, run).tasks[n].finished { UnfinishedLeadsToCycle(s, run, n); }
    }
  }

  /** The same task by task: a dispatched task always finishes if and only if what it depends on leads to no cycle. */
  lemma TaskFinishesIffNoCycle(s: BState, es: seq<BEvent>, a: nat)
    requires Initial(s) && Possible(s, es) && a < |Exec(s, es).tasks|
    requires Exec(s, es).tasks[a].status.Rank() >= Ready.Rank()
    ensures AlwaysFinishesTask(Exec(s, es), a) <==> !LeadsToCycle(Exec(s, es), a)
  {
    var s' := Exec(s, es);
    ReachedLively(s, es);
    hide Inv, Lively, Settled, Initial, LeadsToCycle;
    if LeadsToCycle(s', a) {
      var run := CycleIsNotFinished(s', a);
    } else {
      forall run | DeviceRun(s', run) && Settled(Exec(s', run))
        ensures Finished(Exec(s', run).tasks, a)
      {
        StaysDispatched(s', run, a);
        if !Exec(s', run).tasks[a].finished { UnfinishedLeadsToCycle(s', run, a); }
      }
    }
  }

  lemma StaysDispatched(s: BState, es: seq<BEvent>, a: nat)
    requires Inv(s) && Possible(s, es) && a < |s.tasks| && s.tasks[a].status.Rank() >= Ready.Rank()
    ensures a < |Exec(s, es).tasks| && Exec(s, es).tasks[a].status.Rank() >= Ready.Rank()
  {
    RunAdvances(s, es);
    assert Grows(s.tasks[a], Exec(s, es).tasks[a]);
  }

  /** And a task that leads to a cycle never starts, whatever devices, threads and handlers do. */
  lemma CycleBlocks(s: BState, es: seq<BEvent>, more: seq<BEvent>, a: nat)
    requires Initial(s) && Possible(s, es) && Possible(Exec(s, es), more) && LeadsToCycle(Exec(s, es), a)
    ensures a < |Exec(Exec(s, es), more).tasks| && !Exec(Exec(s, es), more).tasks[a].started
  {
    ReachedLively(s, es);
    hide Inv, Lively, Possible, Exec, Initial, LeadsToCycle;
    CycleHoldsUp(Exec(s, es), more, a);
  }
}
