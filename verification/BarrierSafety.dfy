/** What holds over every run of the barrier-packet scheduler. */
module BarrierSafety {
  import opened TaskStates
  import opened Bags
  import opened BarrierMode
  import opened BarrierInvariant
  import opened BarrierSteps
  import opened BarrierDispatch
  import opened BarrierBatch

  lemma InitialHolds(s: BState)
    requires Initial(s)
    ensures Inv(s)
  {
    IdsEachOnce(s.maxSignals);
    var all := multiset(s.freeSignals) + Total(s.tasks, OwnedSignal);
    assert all == multiset(s.freeSignals);
    forall t: nat
      ensures FlightBag(s)[t] == 0
    {
      forall g | 0 <= g < |s.groups| ensures t !in DispatchedOf(s.groups[g]) { }
      TotalZero(s.groups, t, DispatchedOf);
    }
  }

  lemma PeekStepKeeps(s: BState, g: nat)
    requires Inv(s) && CanPeek(s, g)
    ensures Inv(s.(peeked := s.peeked + {s.groups[g].created[0]}))
  {
    CreatedBound(s, g);
    hide Inv;
    PeekKeeps(s, g);
  }

  lemma CreatedBound(s: BState, g: nat)
    requires Inv(s) && CanPeek(s, g)
    ensures forall k :: 0 <= k < |s.groups[g].created| ==> s.groups[g].created[k] < |s.tasks|
  {
  }

  lemma StepKeeps(s: BState, e: BEvent)
    requires Inv(s) && Enabled(s, e)
    ensures Inv(Step(s, e))
  {
    hide Inv;
    match e
    case Create(preds, g) => CreateKeeps(s, preds, g);
    case Peek(g) => PeekStepKeeps(s, g);
    case TryDispatch(t, q, free) => TryKeeps(s, t, q, free);
    case Publish(t) => PublishKeeps(s, t);
    case Observe(q, i) => ObserveKeeps(s, q, i);
    case BarrierDone(q) => BarrierDoneKeeps(s, q);
    case Start(q) => StartKeeps(s, q);
    case Finish(t) => FinishKeeps(s, t);
    case Seal(g, sinks) => SealKeeps(s, g, sinks);
    case EnqueueBatch(q) => EnqueueKeeps(s, q);
    case MarkExecuted => MarkKeeps(s);
    case Reclaim => ReclaimKeeps(s);
    case EndBatch => EndKeeps(s);
  }

  lemma {:induction false} RunKeeps(s: BState, es: seq<BEvent>)
    requires Inv(s) && Possible(s, es)
    ensures Inv(Exec(s, es))
    decreases |es|
  {
    if |es| > 0 {
      StepKeeps(s, es[0]);
      RunKeeps(Step(s, es[0]), es[1..]);
    }
  }

  lemma Reached(s: BState, es: seq<BEvent>)
    requires Initial(s) && Possible(s, es)
    ensures Inv(Exec(s, es))
  {
    InitialHolds(s);
    RunKeeps(s, es);
  }

  // ---------------------------------------------------------------- tasks only move forward

  lemma StepAdvances(s: BState, e: BEvent)
    requires Inv(s) && Enabled(s, e)
    ensures AllGrow(s.tasks, Step(s, e).tasks)
  {
    hide SignalPool, SignalValues, Safe, Queues, Sinks, Peeks, CreatedOk, InFlight, BatchOk;
    if (e.MarkExecuted? || e.Reclaim?) { MemberOwns(s); }
    if e.TryDispatch? { TryAdvances(s, e.task, e.q, e.segmentFree); }
  }

  lemma TryAdvances(s: BState, t: nat, q: nat, segmentFree: bool)
    requires Tasks(s) && CanTry(s, t, q)
    ensures AllGrow(s.tasks, DoTry(s, t, q, segmentFree).tasks)
  {
    if Goes(s, t, segmentFree) { DispatchTasks(s, t, q); }
  }

  lemma GrowsTrans(a: seq<BTask>, b: seq<BTask>, c: seq<BTask>)
    requires AllGrow(a, b) && AllGrow(b, c)
    ensures AllGrow(a, c)
  {
    forall i | 0 <= i < |a|
      ensures Grows(a[i], c[i])
    {
      assert Grows(a[i], b[i]) && Grows(b[i], c[i]);
    }
  }

  /** State, signal, and-predecessors and completion of a task are never taken back. */
  lemma {:induction false} RunAdvances(s: BState, es: seq<BEvent>)
    requires Inv(s) && Possible(s, es)
    ensures AllGrow(s.tasks, Exec(s, es).tasks)
    decreases |es|
  {
    if |es| == 0 {
    } else {
      StepKeeps(s, es[0]);
      StepAdvances(s, es[0]);
      RunAdvances(Step(s, es[0]), es[1..]);
      GrowsTrans(s.tasks, Step(s, es[0]).tasks, Exec(s, es).tasks);
    }
  }

  // ---------------------------------------------------------------- the event that made a task

  lemma {:induction false} ExecSplit(s: BState, es: seq<BEvent>, k: nat)
    requires Possible(s, es) && k <= |es|
    ensures Possible(s, es[..k]) && Possible(Exec(s, es[..k]), es[k..])
    ensures Exec(Exec(s, es[..k]), es[k..]) == Exec(s, es)
    decreases k
  {
    if k == 0 {
      assert es[..0] == [] && es[0..] == es;
    } else {
      assert es[..k][1..] == es[1..][..k - 1] && es[1..][k - 1..] == es[k..];
      ExecSplit(Step(s, es[0]), es[1..], k - 1);
    }
  }

  /** Event k of the run makes task t. */
  ghost predicate Makes(s: BState, es: seq<BEvent>, k: nat, t: nat) {
    k < |es| && es[k].Create? && Possible(s, es[..k]) && |Exec(s, es[..k]).tasks| == t
  }

  /** Whatever happens later, a task requires what it was launched with, in the group it was launched in. */
  lemma TaskIsAsLaunched(s: BState, es: seq<BEvent>, k: nat, t: nat)
    requires Initial(s) && Possible(s, es) && Makes(s, es, k, t)
    ensures t < |Exec(s, es).tasks|
    ensures Exec(s, es).tasks[t].preds == es[k].preds && Exec(s, es).tasks[t].group == es[k].group
  {
    ExecSplit(s, es, k);
    Reached(s, es[..k]);
    var s1 := Exec(s, es[..k]);
    assert es[k..][0] == es[k];
    assert Enabled(s1, es[k]) && Possible(Step(s1, es[k]), es[k..][1..]);
    hide Inv, Initial, Possible;
    StepKeeps(s1, es[k]);
    RunAdvances(Step(s1, es[k]), es[k..][1..]);
    assert Grows(Step(s1, es[k]).tasks[t], Exec(s, es).tasks[t]);
  }

  // ---------------------------------------------------------------- the theorems

  /**
    A kernel starts only after every task required at its launch has finished, however signals were recycled
    meanwhile.
   */
  lemma StartsAfterPredecessors(s: BState, es: seq<BEvent>, k: nat, t: nat, p: nat)
    requires Initial(s) && Possible(s, es) && Makes(s, es, k, t) && p in es[k].preds
    requires t < |Exec(s, es).tasks| && Exec(s, es).tasks[t].started
    ensures p < t && Exec(s, es).tasks[p].finished
  {
    var s' := Exec(s, es);
    Reached(s, es);
    TaskIsAsLaunched(s, es, k, t);
    var j :| 0 <= j < |s'.tasks[t].preds| && s'.tasks[t].preds[j] == p;
    assert TaskOk(s', t);
    assert Finished(s'.tasks, s'.tasks[t].preds[j]);
  }

  /** The same at the moment it matters: when the packet processor may launch the head of a queue. */
  lemma LaunchableIsSafe(s: BState, es: seq<BEvent>, k: nat, q: nat, p: nat)
    requires Initial(s) && Possible(s, es) && CanStart(Exec(s, es), q)
    requires Makes(s, es, k, Exec(s, es).queues[q][0].task) && p in es[k].preds
    ensures p < |Exec(s, es).tasks| && Exec(s, es).tasks[p].finished
  {
    var s' := Exec(s, es);
    Reached(s, es);
    HeadIsSafe(s', q);
    TaskIsAsLaunched(s, es, k, s'.queues[q][0].task);
    var preds := s'.tasks[s'.queues[q][0].task].preds;
    var j :| 0 <= j < |preds| && preds[j] == p;
    assert Finished(s'.tasks, preds[j]);
  }

  /** Every signal is in the pool or with exactly one dispatched task, whose unfinished state it shows. */
  lemma SignalsConserved(s: BState, es: seq<BEvent>)
    requires Initial(s) && Possible(s, es)
    ensures EachOnce(multiset(Exec(s, es).freeSignals) + Total(Exec(s, es).tasks, OwnedSignal), s.maxSignals)
    ensures forall i :: 0 <= i < |Exec(s, es).tasks| && Owns(Exec(s, es).tasks[i]) ==>
              Exec(s, es).tasks[i].signal < |Exec(s, es).signalValue| &&
              (Exec(s, es).signalValue[Exec(s, es).tasks[i].signal] == 0 <==> Exec(s, es).tasks[i].finished)
  {
    Reached(s, es);
    RunSize(s, es);
  }

  lemma {:induction false} RunSize(s: BState, es: seq<BEvent>)
    requires Possible(s, es)
    ensures Exec(s, es).maxSignals == s.maxSignals
    decreases |es|
  {
    if |es| > 0 { RunSize(Step(s, es[0]), es[1..]); }
  }

  /**
    Sink-set soundness: in every group, each dispatched task reaches a sink along and_predecessors_ edges, and
    once the sinks have finished so have all dispatched tasks.
   */
  lemma SinksStandForAll(s: BState, es: seq<BEvent>, g: nat, d: nat) returns (path: seq<nat>)
    requires Initial(s) && Possible(s, es) && g < |Exec(s, es).groups| && d in Exec(s, es).groups[g].dispatched
    ensures SinkPath(Exec(s, es).tasks, Exec(s, es).groups[g].dispatched, path)
    ensures path[0] == d && path[|path| - 1] in Exec(s, es).groups[g].sinks
    ensures (forall k :: k in Exec(s, es).groups[g].sinks ==> Finished(Exec(s, es).tasks, k)) ==>
            Finished(Exec(s, es).tasks, d)
  {
    var s' := Exec(s, es);
    Reached(s, es);
    assert Closed(s'.tasks, s'.groups[g].dispatched, s'.groups[g].sinks);
    path := ReachesSink(s', s'.groups[g].dispatched, s'.groups[g].sinks, d);
    if forall k :: k in s'.groups[g].sinks ==> Finished(s'.tasks, k) {
      SinksFinishLast(s', s'.groups[g].dispatched, s'.groups[g].sinks, d);
    }
  }

  /** What the handler is told: all tasks of its batch have finished, though only the sinks were waited for. */
  lemma HandlerSeesFinishedTasks(s: BState, es: seq<BEvent>, k: nat)
    requires Initial(s) && Possible(s, es) && Exec(s, es).batch.Handling? && k < |Exec(s, es).batch.members|
    ensures Finished(Exec(s, es).tasks, Exec(s, es).batch.members[k])
  {
    Reached(s, es);
  }

  /** Each signal the handler is still to return is held by that member, and by nobody else. */
  lemma HandlerReturnsOwnedSignals(s: BState, es: seq<BEvent>)
    requires Initial(s) && Possible(s, es) && CanReclaim(Exec(s, es))
    ensures var s' := Exec(s, es); var m := s'.batch.members[s'.batch.i];
            Owns(s'.tasks[m]) && s'.tasks[m].signal !in s'.freeSignals &&
            forall i :: 0 <= i < |s'.tasks| && i != m && Owns(s'.tasks[i]) ==> s'.tasks[i].signal != s'.tasks[m].signal
  {
    var s' := Exec(s, es);
    var m := s'.batch.members[s'.batch.i];
    Reached(s, es);
    MemberOwns(s');
    OwnedIsNotFree(s', m);
    forall i | 0 <= i < |s'.tasks| && i != m && Owns(s'.tasks[i])
      ensures s'.tasks[i].signal != s'.tasks[m].signal
    {
      OwnersDiffer(s', i, m);
    }
  }

  /**
    Two threads may have peeked at the same task, or at different ones: whoever dispatches one pops exactly that
    task off created_tasks_.
   */
  lemma DispatchPopsItself(s: BState, es: seq<BEvent>, t: nat, q: nat, segmentFree: bool)
    requires Initial(s) && Possible(s, es) && CanTry(Exec(s, es), t, q) && Goes(Exec(s, es), t, segmentFree)
    ensures var g := Exec(s, es).groups[Exec(s, es).tasks[t].group];
            |g.created| > 0 && g.created[0] == t && t !in g.created[1..]
  {
    Reached(s, es);
    assert PeekOk(Exec(s, es), t);
    CreatedDistinct(s, es);
    var g := Exec(s, es).groups[Exec(s, es).tasks[t].group];
    assert Increasing(g.created);
  }

  /**
    A try goes through if and only if every required task has been dispatched and there are a signal and a segment;
    then the task is READY with the signal at the head of the pool and its slot is the last packet of the queue.
    Otherwise nothing but the task's own state changes.
   */
  lemma TryOutcome(s: BState, t: nat, q: nat, segmentFree: bool)
    requires CanTry(s, t, q) && s.tasks[t].status.Rank() < Ready.Rank()
    ensures var s', task := DoTry(s, t, q, segmentFree), s.tasks[t];
            if s.freeSignals != [] && segmentFree
               && forall j :: 0 <= j < |task.preds| ==> s.tasks[task.preds[j]].status.Rank() >= Dispatched.Rank() then
              && |s'.tasks| == |s.tasks| && s'.tasks[t].status == Ready && s'.tasks[t].signal == s.freeSignals[0]
              && s'.freeSignals == s.freeSignals[1..] && |s'.queues| == |s.queues| && s.queues[q] < s'.queues[q]
              && s'.queues[q][|s'.queues[q]| - 1] == Slot(t)
              && |s'.groups| == |s.groups| && s'.groups[task.group].created == s.groups[task.group].created[1..]
              && s'.groups[task.group].dispatched == s.groups[task.group].dispatched + [t]
            else
              s' == s.(tasks := s.tasks[t := task.(status := Initialized, andPreds := [])])
  {
    hide BarrierPackets, SignalsOf, Unexecuted;
    if Goes(s, t, segmentFree) {
      var sigs := SignalsOf(s.tasks, Unexecuted(s.tasks, s.tasks[t].preds));
      assert DoTry(s, t, q, segmentFree).queues[q] == s.queues[q] + DispatchPackets(sigs, t);
    }
  }

  // ---------------------------------------------------------------- created_tasks_ is in order of creation

  ghost predicate Increasing(ids: seq<nat>) {
    forall i, j :: 0 <= i < j < |ids| ==> ids[i] < ids[j]
  }

  ghost predicate InOrder(s: BState) {
    forall g {:trigger s.groups[g]} :: 0 <= g < |s.groups| ==> Increasing(s.groups[g].created)
  }

  lemma StepInOrder(s: BState, e: BEvent)
    requires CreatedOk(s) && InOrder(s) && Enabled(s, e)
    ensures InOrder(Step(s, e))
  {
  }

  lemma CreatedDistinct(s: BState, es: seq<BEvent>)
    requires Initial(s) && Possible(s, es)
    ensures InOrder(Exec(s, es))
  {
    InitialHolds(s);
    RunInOrder(s, es);
  }

  lemma {:induction false} RunInOrder(s: BState, es: seq<BEvent>)
    requires Inv(s) && InOrder(s) && Possible(s, es)
    ensures InOrder(Exec(s, es))
    decreases |es|
  {
    if |es| > 0 {
      StepKeeps(s, es[0]);
      StepInOrder(s, es[0]);
      RunInOrder(Step(s, es[0]), es[1..]);
    }
  }
}
