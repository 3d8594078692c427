/**
  The lists of a task group: created_tasks_ has exactly what is still to be dispatched, and dispatched_sink_tasks_
  exactly the dispatched tasks that no other one of the group waits for.
 */
module BarrierGroups {
  import opened TaskStates
  import opened Bags
  import opened BarrierMode
  import opened BarrierInvariant
  import opened BarrierSteps
  import opened BarrierDispatch
  import opened BarrierBatch
  import opened BarrierSafety

  // ---------------------------------------------------------------- what can happen

  /**
    At any time a task can be launched that requires any tasks made before; the head of a group's created tasks can be
    peeked at; a task once peeked at can be tried for any queue, however long ago that was; and dispatched tasks that
    have been taken off a group can be put behind a barrier on any queue.
   */
  lemma ThreadsAreFree(s: BState, es: seq<BEvent>, preds: seq<nat>, g: nat, q: nat)
    requires Initial(s) && Possible(s, es) && g < |Exec(s, es).groups| && q < |Exec(s, es).queues|
    ensures (forall j :: 0 <= j < |preds| ==> preds[j] < |Exec(s, es).tasks|) ==>
              Enabled(Exec(s, es), Create(preds, g))
    ensures Exec(s, es).groups[g].created != [] ==> Enabled(Exec(s, es), Peek(g))
    ensures forall t, segmentFree :: t in Exec(s, es).peeked ==>
              Enabled(Exec(s, es), BEvent.TryDispatch(t, q, segmentFree))
    ensures Exec(s, es).batch.Sealed? ==> Enabled(Exec(s, es), EnqueueBatch(q))
  {
    Reached(s, es);
    var s' := Exec(s, es);
    forall t | t in s'.peeked
      ensures CanTry(s', t, q)
    {
      assert PeekOk(s', t) && TaskOk(s', t);
    }
    if s'.batch.Sealed? {
      SealedExist(s');
    }
  }

  lemma SealedExist(s: BState)
    requires BatchOk(s) && s.batch.Sealed?
    ensures forall j :: 0 <= j < |s.batch.sinks| ==> s.batch.sinks[j] < |s.tasks|
  {
    forall j | 0 <= j < |s.batch.sinks|
      ensures s.batch.sinks[j] < |s.tasks|
    {
      assert s.batch.sinks[j] in ToSet(s.batch.sinks);
      assert s.batch.sinks[j] in s.batch.members;
    }
  }

  // ---------------------------------------------------------------- created_tasks_

  ghost predicate ToDispatch(tasks: seq<BTask>, g: nat, t: nat) {
    t < |tasks| && tasks[t].group == g && tasks[t].status.Rank() < Ready.Rank()
  }

  ghost predicate ListsToDispatch(s: BState) {
    forall g: nat, t: nat {:trigger ToDispatch(s.tasks, g, t)} ::
      g < |s.groups| ==> (t in s.groups[g].created <==> ToDispatch(s.tasks, g, t))
  }

  /** Tasks stay in their group and to be dispatched, and no group's list changes. */
  lemma SameLists(s: BState, s': BState)
    requires ListsToDispatch(s) && |s'.groups| == |s.groups|
    requires forall g :: 0 <= g < |s.groups| ==> s'.groups[g].created == s.groups[g].created
    requires forall g: nat, t: nat :: ToDispatch(s'.tasks, g, t) <==> ToDispatch(s.tasks, g, t)
    ensures ListsToDispatch(s')
  {
    hide ToDispatch;
    forall g: nat, t: nat | g < |s'.groups|
      ensures t in s'.groups[g].created <==> ToDispatch(s'.tasks, g, t)
    {
      assert ToDispatch(s'.tasks, g, t) <==> ToDispatch(s.tasks, g, t);
    }
  }

  lemma CreateLists(s: BState, preds: seq<nat>, g: nat)
    requires ListsToDispatch(s) && CanCreate(s, preds, g)
    ensures ListsToDispatch(DoCreate(s, preds, g))
  {
    var s' := DoCreate(s, preds, g);
    forall h: nat, t: nat | h < |s'.groups|
      ensures t in s'.groups[h].created <==> ToDispatch(s'.tasks, h, t)
    {
      assert t in s.groups[h].created <==> ToDispatch(s.tasks, h, t);
    }
  }

  lemma DispatchLists(s: BState, t: nat, q: nat)
    requires ListsToDispatch(s) && InOrder(s) && Tasks(s) && Peeks(s) && Dispatches(s, t, q)
    ensures ListsToDispatch(DispatchNow(s, t, q))
  {
    var s', g := DispatchNow(s, t, q), s.tasks[t].group;
    assert PeekOk(s, t);
    var created := s.groups[g].created;
    assert Increasing(created) && created == [t] + created[1..];
    assert t !in created[1..];
    hide DispatchPackets, Unexecuted, SignalsOf, InOrder, Increasing;
    forall h: nat, u: nat | h < |s'.groups|
      ensures u in s'.groups[h].created <==> ToDispatch(s'.tasks, h, u)
    {
      assert u in s.groups[h].created <==> ToDispatch(s.tasks, h, u);
    }
  }

  lemma TryLists(s: BState, t: nat, q: nat, segmentFree: bool)
    requires ListsToDispatch(s) && InOrder(s) && Tasks(s) && Peeks(s) && CanTry(s, t, q)
    ensures ListsToDispatch(DoTry(s, t, q, segmentFree))
  {
    if Goes(s, t, segmentFree) {
      hide DispatchNow, ListsToDispatch, Tasks, Peeks, InOrder;
      DispatchLists(s, t, q);
    } else {
      hide DispatchNow, ListsToDispatch, Tasks, Peeks, InOrder;
      SameLists(s, DoTry(s, t, q, segmentFree));
    }
  }

  lemma OtherLists(s: BState, e: BEvent)
    requires ListsToDispatch(s) && Enabled(s, e) && !e.Create? && !e.TryDispatch?
    requires e.MarkExecuted? || e.Reclaim? ==> s.tasks[s.batch.members[s.batch.i]].status.Rank() >= Ready.Rank()
    requires e.Start? ==> s.tasks[s.queues[e.q][0].task].status.Rank() >= Ready.Rank()
    ensures ListsToDispatch(Step(s, e))
  {
    hide ListsToDispatch, BarrierPackets, SignalsOf, Looks;
    SameLists(s, Step(s, e));
  }

  lemma StepLists(s: BState, e: BEvent)
    requires Inv(s) && InOrder(s) && ListsToDispatch(s) && Enabled(s, e)
    ensures ListsToDispatch(Step(s, e))
  {
    if e.MarkExecuted? || e.Reclaim? { MemberOwns(s); }
    hide ListsToDispatch, InOrder, Tasks, SignalPool, SignalValues, InFlight, Safe, Queues, Sinks, BatchOk, Peeks;
    hide CreatedOk, DoTry, DoCreate;
    match e
    case Create(preds, g) => CreateLists(s, preds, g);
    case TryDispatch(t, q, segmentFree) => TryLists(s, t, q, segmentFree);
    case _ => OtherLists(s, e);
  }

  lemma {:induction false} RunLists(s: BState, es: seq<BEvent>)
    requires Inv(s) && InOrder(s) && ListsToDispatch(s) && Possible(s, es)
    ensures ListsToDispatch(Exec(s, es))
    decreases |es|
  {
    if |es| > 0 {
      StepKeeps(s, es[0]);
      StepInOrder(s, es[0]);
      StepLists(s, es[0]);
      hide Inv, InOrder, ListsToDispatch;
      RunLists(Step(s, es[0]), es[1..]);
    }
  }

  /**
    In every reachable state created_tasks_ lists the tasks launched into the group that are not yet READY, all of
    them, in the order of their launches.
   */
  lemma CreatedIsToDispatch(s: BState, es: seq<BEvent>, k: nat, t: nat)
    requires Initial(s) && Possible(s, es) && Makes(s, es, k, t)
    ensures es[k].group < |Exec(s, es).groups| && t < |Exec(s, es).tasks|
    ensures t in Exec(s, es).groups[es[k].group].created <==> Exec(s, es).tasks[t].status.Rank() < Ready.Rank()
    ensures forall g :: 0 <= g < |Exec(s, es).groups| && g != es[k].group ==> t !in Exec(s, es).groups[g].created
    ensures Increasing(Exec(s, es).groups[es[k].group].created)
  {
    InitialHolds(s);
    RunLists(s, es);
    TaskIsAsLaunched(s, es, k, t);
    CreatedDistinct(s, es);
    Reached(s, es);
    var s' := Exec(s, es);
    assert TaskOk(s', t);
    hide Exec, Possible, Initial, Makes, Inv;
    forall g: nat | g < |s'.groups|
      ensures t in s'.groups[g].created <==> ToDispatch(s'.tasks, g, t)
    {
    }
  }

  // ---------------------------------------------------------------- dispatched_sink_tasks_

  /** No member waits for a sink. */
  ghost predicate Unawaited(tasks: seq<BTask>, members: seq<nat>, sinks: set<nat>) {
    forall d, k :: d in sinks && 0 <= k < |members| && members[k] < |tasks| ==> d !in tasks[members[k]].andPreds
  }

  ghost predicate AndPredsGone(tasks: seq<BTask>) {
    forall k, j :: 0 <= k < |tasks| && 0 <= j < |tasks[k].andPreds| ==>
      tasks[k].andPreds[j] < |tasks| && tasks[tasks[k].andPreds[j]].status.Rank() >= Ready.Rank()
  }

  ghost predicate LeastSinks(s: BState) {
    && AndPredsGone(s.tasks)
    && forall g {:trigger s.groups[g]} :: 0 <= g < |s.groups| ==>
         Unawaited(s.tasks, s.groups[g].dispatched, s.groups[g].sinks)
  }

  /** Tasks of the group that nobody of the group waits for. */
  ghost predicate NobodyWaits(tasks: seq<BTask>, members: seq<nat>, d: nat) {
    d in members && forall k :: 0 <= k < |members| && members[k] < |tasks| ==> d !in tasks[members[k]].andPreds
  }

  lemma DispatchUnawaited(s: BState, t: nat, q: nat)
    requires Tasks(s) && Sinks(s) && LeastSinks(s) && Dispatches(s, t, q)
    ensures var s', g := DispatchNow(s, t, q), s.tasks[t].group;
            Unawaited(s'.tasks, s'.groups[g].dispatched, s'.groups[g].sinks)
  {
    var s', g := DispatchNow(s, t, q), s.tasks[t].group;
    assert TaskOk(s, t);
    assert Closed(s.tasks, s.groups[g].dispatched, s.groups[g].sinks);
    assert Unawaited(s.tasks, s.groups[g].dispatched, s.groups[g].sinks);
    hide DispatchPackets, SignalsOf, Sinks, Tasks;
    var members := s'.groups[g].dispatched;
    forall d, k | d in s'.groups[g].sinks && 0 <= k < |members| && members[k] < |s'.tasks|
      ensures d !in s'.tasks[members[k]].andPreds
    {
      if members[k] == t {
        assert t !in s.tasks[t].preds;
      } else if d == t {
        assert t !in s.tasks[members[k]].andPreds;
      }
    }
  }

  lemma DispatchGone(s: BState, t: nat, q: nat)
    requires AndPredsGone(s.tasks) && Dispatches(s, t, q)
    ensures AndPredsGone(DispatchNow(s, t, q).tasks)
  {
    hide DispatchPackets, SignalsOf, Record;
  }

  lemma DispatchElsewhere(s: BState, t: nat, q: nat, h: nat)
    requires Sinks(s) && LeastSinks(s) && Dispatches(s, t, q) && h < |s.groups|
    ensures Unawaited(DispatchNow(s, t, q).tasks, s.groups[h].dispatched, s.groups[h].sinks)
  {
    assert Closed(s.tasks, s.groups[h].dispatched, s.groups[h].sinks);
    assert Unawaited(s.tasks, s.groups[h].dispatched, s.groups[h].sinks);
    hide DispatchPackets, SignalsOf, Record, Unexecuted, Sinks, LeastSinks, PredsDispatched;
  }

  lemma DispatchLeast(s: BState, t: nat, q: nat)
    requires Tasks(s) && Sinks(s) && LeastSinks(s) && Dispatches(s, t, q)
    ensures LeastSinks(DispatchNow(s, t, q))
  {
    DispatchUnawaited(s, t, q);
    DispatchGone(s, t, q);
    forall h: nat | h < |s.groups|
      ensures Unawaited(DispatchNow(s, t, q).tasks, s.groups[h].dispatched, s.groups[h].sinks)
    {
      DispatchElsewhere(s, t, q, h);
    }
    hide DispatchPackets, SignalsOf, Record, Unexecuted, Unawaited, AndPredsGone, Tasks, Sinks, PredsDispatched;
  }

  /** Nothing is dispatched or sealed, and only tasks to be dispatched may change their and-predecessors. */
  lemma SameLeast(s: BState, s': BState)
    requires Tasks(s) && Sinks(s) && LeastSinks(s) && AllGrow(s.tasks, s'.tasks) && |s'.groups| == |s.groups|
    requires forall i :: 0 <= i < |s'.tasks| && (i < |s.tasks| ==> s.tasks[i].status.Rank() < Ready.Rank()) ==>
               s'.tasks[i].andPreds == []
    requires forall g :: 0 <= g < |s.groups| ==>
               || (s'.groups[g].dispatched == s.groups[g].dispatched && s'.groups[g].sinks == s.groups[g].sinks)
               || s'.groups[g].sinks == {}
    ensures LeastSinks(s')
  {
    forall k, j | 0 <= k < |s'.tasks| && 0 <= j < |s'.tasks[k].andPreds|
      ensures s'.tasks[k].andPreds[j] < |s'.tasks|
      ensures s'.tasks[s'.tasks[k].andPreds[j]].status.Rank() >= Ready.Rank()
    {
      assert Grows(s.tasks[k], s'.tasks[k]);
      assert Grows(s.tasks[s.tasks[k].andPreds[j]], s'.tasks[s.tasks[k].andPreds[j]]);
    }
    forall g | 0 <= g < |s'.groups|
      ensures Unawaited(s'.tasks, s'.groups[g].dispatched, s'.groups[g].sinks)
    {
      assert Closed(s.tasks, s.groups[g].dispatched, s.groups[g].sinks);
      assert Unawaited(s.tasks, s.groups[g].dispatched, s.groups[g].sinks);
      assert forall k :: 0 <= k < |s.groups[g].dispatched| ==>
          Grows(s.tasks[s.groups[g].dispatched[k]], s'.tasks[s.groups[g].dispatched[k]]);
    }
  }

  lemma ParkLeast(s: BState, t: nat, q: nat, segmentFree: bool)
    requires Tasks(s) && Sinks(s) && LeastSinks(s) && CanTry(s, t, q) && !Goes(s, t, segmentFree)
    ensures LeastSinks(DoTry(s, t, q, segmentFree))
  {
    var s' := DoTry(s, t, q, segmentFree);
    TryAdvances(s, t, q, segmentFree);
    assert forall i :: 0 <= i < |s.tasks| ==> TaskOk(s, i);
    hide Tasks, Sinks, LeastSinks, AllGrow, DispatchNow;
    SameLeast(s, s');
  }

  /** The other steps leave and-predecessors alone, and lists but for those of a batch that is sealed. */
  lemma OtherShape(s: BState, e: BEvent)
    requires Enabled(s, e) && !e.TryDispatch?
    ensures |s.tasks| <= |Step(s, e).tasks| && |Step(s, e).groups| == |s.groups|
    ensures forall i :: 0 <= i < |Step(s, e).tasks| ==>
              Step(s, e).tasks[i].andPreds == if i < |s.tasks| then s.tasks[i].andPreds else []
    ensures forall g :: 0 <= g < |s.groups| ==>
              || (Step(s, e).groups[g].dispatched == s.groups[g].dispatched &&
                  Step(s, e).groups[g].sinks == s.groups[g].sinks)
              || Step(s, e).groups[g].sinks == {}
  {
    hide BarrierPackets, SignalsOf, Looks;
  }

  lemma OtherLeast(s: BState, e: BEvent)
    requires Tasks(s) && Sinks(s) && LeastSinks(s) && Enabled(s, e) && !e.TryDispatch?
    requires AllGrow(s.tasks, Step(s, e).tasks)
    ensures LeastSinks(Step(s, e))
  {
    assert forall i :: 0 <= i < |s.tasks| ==> TaskOk(s, i);
    hide Tasks, Sinks, LeastSinks, AllGrow, Enabled, Step;
    OtherShape(s, e);
    SameLeast(s, Step(s, e));
  }

  lemma TryLeast(s: BState, t: nat, q: nat, segmentFree: bool)
    requires Tasks(s) && Sinks(s) && LeastSinks(s) && CanTry(s, t, q)
    ensures LeastSinks(DoTry(s, t, q, segmentFree))
  {
    hide Tasks, Sinks, LeastSinks, DispatchNow;
    if Goes(s, t, segmentFree) {
      TryDispatches(s, t, q, segmentFree);
      DispatchLeast(s, t, q);
    } else {
      ParkLeast(s, t, q, segmentFree);
    }
  }

  lemma StepLeast(s: BState, e: BEvent)
    requires Inv(s) && LeastSinks(s) && Enabled(s, e)
    ensures LeastSinks(Step(s, e))
  {
    StepAdvances(s, e);
    assert Tasks(s) && Sinks(s);
    hide Inv, Tasks, Sinks, LeastSinks, AllGrow, CanTry, DoTry;
    if e.TryDispatch? {
      TryLeast(s, e.task, e.q, e.segmentFree);
    } else {
      hide Enabled, Step;
      OtherLeast(s, e);
    }
  }

  lemma TryDispatches(s: BState, t: nat, q: nat, segmentFree: bool)
    requires CanTry(s, t, q) && Goes(s, t, segmentFree)
    ensures Dispatches(s, t, q) && DoTry(s, t, q, segmentFree) == DispatchNow(s, t, q)
  {
  }

  lemma {:induction false} RunLeast(s: BState, es: seq<BEvent>)
    requires Inv(s) && LeastSinks(s) && Possible(s, es)
    ensures LeastSinks(Exec(s, es))
    decreases |es|
  {
    if |es| > 0 {
      StepKeeps(s, es[0]);
      StepLeast(s, es[0]);
      hide Inv, LeastSinks;
      RunLeast(Step(s, es[0]), es[1..]);
    }
  }

  /** A task dispatched and not yet sealed is a sink exactly when no such task of the group waits for it. */
  lemma SinksAreLeast(s: BState, es: seq<BEvent>, g: nat, d: nat)
    requires Initial(s) && Possible(s, es) && g < |Exec(s, es).groups|
    ensures var group := Exec(s, es).groups[g];
            d in group.sinks <==> NobodyWaits(Exec(s, es).tasks, group.dispatched, d)
  {
    InitialHolds(s);
    RunLeast(s, es);
    Reached(s, es);
    var s' := Exec(s, es);
    var group := s'.groups[g];
    assert Closed(s'.tasks, group.dispatched, group.sinks);
    assert Unawaited(s'.tasks, group.dispatched, group.sinks);
    hide Exec, Possible, Initial, Inv, LeastSinks;
    if d in group.dispatched {
      var i :| 0 <= i < |group.dispatched| && group.dispatched[i] == d;
      assert CoveredIn(s'.tasks, group.dispatched, group.sinks, group.dispatched[i]);
    }
  }
}
