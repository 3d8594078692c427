/**
  A run of the barrier-packet scheduler into a cycle: a signal comes back to a task behind the very barrier that has
  still to see it at 0.
 */
module BarrierBlocked {
  import opened TaskStates
  import opened Bags
  import opened BarrierMode
  import opened BarrierInvariant
  import opened BarrierDispatch
  import opened BarrierSafety
  import opened BarrierProgress
  import opened BarrierCycles

  lemma {:induction false} ExecAppend(s: BState, es: seq<BEvent>, e: BEvent)
    requires Possible(s, es) && Enabled(Exec(s, es), e)
    ensures Possible(s, es + [e]) && Exec(s, es + [e]) == Step(Exec(s, es), e)
    decreases |es|
  {
    if |es| == 0 {
      assert es + [e] == [e];
    } else {
      assert (es + [e])[1..] == es[1..] + [e];
      ExecAppend(Step(s, es[0]), es[1..], e);
    }
  }

  /** The state reached is t. */
  ghost predicate Reaches(s: BState, es: seq<BEvent>, t: BState) {
    Possible(s, es) && Exec(s, es) == t
  }

  lemma Extend(s: BState, es: seq<BEvent>, t: BState, e: BEvent, t': BState)
    requires Reaches(s, es, t) && Enabled(t, e) && Step(t, e) == t'
    ensures Reaches(s, es + [e], t')
  {
    ExecAppend(s, es, e);
  }

  const NEW := BTask([], 0, Uninitialized, 0, [], false, false, 0)
  const FIRST := NEW.(status := Ready)
  const GOING := NEW.(status := Dispatched)
  const RUNNING := GOING.(started := true)
  const ENDED := RUNNING.(finished := true)
  const DONE := ENDED.(status := Completed)
  const NEXT := BTask([0], 1, Uninitialized, 0, [], false, false, 0)
  const SECOND := BTask([0], 1, Ready, 1, [0], false, false, 0)
  const BOUND := SECOND.(status := Dispatched)
  const LATER := BTask([], 1, Uninitialized, 0, [], false, false, 0)
  const LAST := LATER.(status := Ready)
  const BEHIND: seq<Packet> := [Barrier([0], true, false), Slot(1)]

  /**
    What one thread can do with two signals, two queues and two groups.  It launches task 0 in group 0, on queue 0,
    and task 1 of group 1, which requires task 0 and goes to queue 1 behind a barrier on its signal.  It waits for
    task 0, which seals group 0; the batch completes, and the signal is returned.  Before the processor of queue 1
    has looked at the signal the thread launches task 2 of group 1, which gets it, on queue 1 as well.
   */
  function Station(k: nat): BState
    requires k <= 19
  {
    match k
    case 0 => BState(2, [], [[], []], [Group([], [], {}), Group([], [], {})], [0, 1], [0, 0], {}, NoBatch)
    case 1 => BState(2, [NEW], [[], []], [Group([0], [], {}), Group([], [], {})], [0, 1], [0, 0], {}, NoBatch)
    case 2 => BState(2, [NEW], [[], []], [Group([0], [], {}), Group([], [], {})], [0, 1], [0, 0], {0}, NoBatch)
    case 3 => BState(2, [FIRST], [[Slot(0)], []], [Group([], [0], {0}), Group([], [], {})], [1], [1, 0], {0}, NoBatch)
    case 4 => BState(2, [GOING], [[Slot(0)], []], [Group([], [0], {0}), Group([], [], {})], [1], [1, 0], {0}, NoBatch)
    case 5 =>
      BState(2, [GOING, NEXT], [[Slot(0)], []], [Group([], [0], {0}), Group([1], [], {})],
             [1], [1, 0], {0}, NoBatch)
    case 6 =>
      BState(2, [GOING, NEXT], [[Slot(0)], []], [Group([], [0], {0}), Group([1], [], {})],
             [1], [1, 0], {0, 1}, NoBatch)
    case 7 =>
      BState(2, [GOING, SECOND], [[Slot(0)], BEHIND], [Group([], [0], {0}), Group([], [1], {1})],
             [], [1, 1], {0, 1}, NoBatch)
    case 8 =>
      BState(2, [GOING, BOUND], [[Slot(0)], BEHIND], [Group([], [0], {0}), Group([], [1], {1})],
             [], [1, 1], {0, 1}, NoBatch)
    case 9 =>
      BState(2, [GOING, BOUND], [[Slot(0)], BEHIND], [Group([], [], {}), Group([], [1], {1})],
             [], [1, 1], {0, 1}, Sealed([0], [0]))
    case 10 =>
      BState(2, [GOING, BOUND], [[Slot(0), Barrier([0], true, true)], BEHIND], [Group([], [], {}), Group([], [1], {1})],
             [], [1, 1], {0, 1}, Enqueued([0], [0], 0))
    case 11 =>
      BState(2, [RUNNING, BOUND], [[Barrier([0], true, true)], BEHIND], [Group([], [], {}), Group([], [1], {1})],
             [], [1, 1], {0, 1}, Enqueued([0], [0], 0))
    case 12 =>
      BState(2, [ENDED, BOUND], [[Barrier([0], true, true)], BEHIND], [Group([], [], {}), Group([], [1], {1})],
             [], [0, 1], {0, 1}, Enqueued([0], [0], 0))
    case 13 =>
      BState(2, [ENDED, BOUND], [[Barrier([], true, true)], BEHIND], [Group([], [], {}), Group([], [1], {1})],
             [], [0, 1], {0, 1}, Enqueued([0], [0], 0))
    case 14 =>
      BState(2, [ENDED, BOUND], [[], BEHIND], [Group([], [], {}), Group([], [1], {1})],
             [], [0, 1], {0, 1}, Handling([0], 0, false))
    case 15 =>
      BState(2, [DONE.(status := Executed), BOUND], [[], BEHIND], [Group([], [], {}), Group([], [1], {1})],
             [], [0, 1], {0, 1}, Handling([0], 0, true))
    case 16 =>
      BState(2, [DONE, BOUND], [[], BEHIND], [Group([], [], {}), Group([], [1], {1})],
             [0], [0, 1], {0, 1}, Handling([0], 1, false))
    case 17 =>
      BState(2, [DONE, BOUND, LATER], [[], BEHIND], [Group([], [], {}), Group([2], [1], {1})],
             [0], [0, 1], {0, 1}, Handling([0], 1, false))
    case 18 =>
      BState(2, [DONE, BOUND, LATER], [[], BEHIND], [Group([], [], {}), Group([2], [1], {1})],
             [0], [0, 1], {0, 1, 2}, Handling([0], 1, false))
    case _ =>
      BState(2, [DONE, BOUND, LAST], [[], BEHIND + [Slot(2)]], [Group([], [], {}), Group([], [1, 2], {1, 2})],
             [], [1, 1], {0, 1, 2}, Handling([0], 1, false))
  }

  function Move(k: nat): BEvent
    requires k < 19
  {
    match k
    case 0 => BEvent.Create([], 0)
    case 1 => BEvent.Peek(0)
    case 2 => BEvent.TryDispatch(0, 0, true)
    case 3 => BEvent.Publish(0)
    case 4 => BEvent.Create([0], 1)
    case 5 => BEvent.Peek(1)
    case 6 => BEvent.TryDispatch(1, 1, true)
    case 7 => BEvent.Publish(1)
    case 8 => BEvent.Seal(0, [0])
    case 9 => BEvent.EnqueueBatch(0)
    case 10 => BEvent.Start(0)
    case 11 => BEvent.Finish(0)
    case 12 => BEvent.Observe(0, 0)
    case 13 => BEvent.BarrierDone(0)
    case 14 => BEvent.MarkExecuted
    case 15 => BEvent.Reclaim
    case 16 => BEvent.Create([], 1)
    case 17 => BEvent.Peek(1)
    case _ => BEvent.TryDispatch(2, 1, true)
  }

  /** Two states of the run's shape are the same when their parts are. */
  lemma SameParts(a: BState, b: BState)
    requires a.maxSignals == b.maxSignals && a.tasks == b.tasks
    requires |a.queues| == |b.queues| == 2 && |a.groups| == |b.groups| == 2
    requires a.queues[0] == b.queues[0] && a.queues[1] == b.queues[1]
    requires SameGroup(a.groups[0], b.groups[0]) && SameGroup(a.groups[1], b.groups[1])
    requires a.freeSignals == b.freeSignals && a.signalValue == b.signalValue
    requires a.peeked == b.peeked && a.batch == b.batch
    ensures a == b
  {
  }

  predicate SameGroup(a: Group, b: Group) {
    a.created == b.created && a.dispatched == b.dispatched && a.sinks == b.sinks
  }

  /** What a dispatch makes of a state of that shape, given what it waits for and the packets that come of it. */
  lemma DispatchParts(s: BState, t: nat, q: nat, andPreds: seq<nat>, packets: seq<Packet>) returns (s': BState)
    requires CanTry(s, t, q) && Goes(s, t, true) && |s.groups[s.tasks[t].group].created| > 0
    requires Unexecuted(s.tasks, s.tasks[t].preds) == andPreds
    requires DispatchPackets(SignalsOf(s.tasks, andPreds), t) == packets
    ensures s' == Step(s, TryDispatch(t, q, true)) && s' == DispatchNow(s, t, q)
    ensures s'.tasks == s.tasks[t := s.tasks[t].(status := Ready, signal := s.freeSignals[0], andPreds := andPreds)]
    ensures s'.queues == s.queues[q := s.queues[q] + packets] && s'.freeSignals == s.freeSignals[1..]
    ensures s'.groups == s.groups[s.tasks[t].group := Record(s.groups[s.tasks[t].group], t, andPreds)]
    ensures s'.maxSignals == s.maxSignals && s'.peeked == s.peeked && s'.batch == s.batch
    ensures s'.signalValue == s.signalValue[s.freeSignals[0] := s.signalValue[s.freeSignals[0]] + 1]
  {
    s' := Step(s, TryDispatch(t, q, true));
  }

  lemma NothingToWaitFor(tasks: seq<BTask>, t: nat)
    ensures Unexecuted(tasks, []) == [] && DispatchPackets(SignalsOf(tasks, []), t) == [Slot(t)]
  {
  }

  lemma OneToWaitFor(tasks: seq<BTask>, p: nat, t: nat)
    requires p < |tasks| && tasks[p].status.Rank() < Executed.Rank()
    ensures Unexecuted(tasks, [p]) == [p]
    ensures DispatchPackets(SignalsOf(tasks, [p]), t) == [Barrier([tasks[p].signal], true, false), Slot(t)]
  {
    assert [p][1..] == [];
    assert Unexecuted(tasks, []) == [];
    assert SignalsOf(tasks, [p]) == [tasks[p].signal];
  }

  // ---------------------------------------------------------------- each move leads to the next station

  lemma Move0()
    ensures Enabled(Station(0), Move(0)) && Step(Station(0), Move(0)) == Station(1)
  {
    var s' := Step(Station(0), Move(0));
    SameParts(s', Station(1));
  }

  lemma Move1()
    ensures Enabled(Station(1), Move(1)) && Step(Station(1), Move(1)) == Station(2)
  {
  }

  lemma MayMove2()
    ensures var s := Station(2); CanTry(s, 0, 0) && Goes(s, 0, true) && |s.groups[s.tasks[0].group].created| > 0
  {
    hide Unexecuted, SignalsOf;
  }

  lemma Move2()
    ensures Enabled(Station(2), Move(2)) && Step(Station(2), Move(2)) == Station(3)
  {
    hide Step, DispatchNow, Unexecuted, SignalsOf, DispatchPackets, BarrierPackets, CanTry, Goes;
    MayMove2();
    NothingToWaitFor([NEW], 0);
    var s' := DispatchParts(Station(2), 0, 0, [], [Slot(0)]);
    SameParts(s', Station(3));
  }

  lemma Move3()
    ensures Enabled(Station(3), Move(3)) && Step(Station(3), Move(3)) == Station(4)
  {
  }

  lemma Move4()
    ensures Enabled(Station(4), Move(4)) && Step(Station(4), Move(4)) == Station(5)
  {
    var s' := Step(Station(4), Move(4));
    SameParts(s', Station(5));
  }

  lemma Move5()
    ensures Enabled(Station(5), Move(5)) && Step(Station(5), Move(5)) == Station(6)
  {
  }

  lemma MayMove6()
    ensures var s := Station(6); CanTry(s, 1, 1) && Goes(s, 1, true) && |s.groups[s.tasks[1].group].created| > 0
  {
    hide Unexecuted, SignalsOf;
  }

  lemma Move6()
    ensures Enabled(Station(6), Move(6)) && Step(Station(6), Move(6)) == Station(7)
  {
    hide Step, DispatchNow, Unexecuted, SignalsOf, DispatchPackets, BarrierPackets, CanTry, Goes;
    MayMove6();
    OneToWaitFor(Station(6).tasks, 0, 1);
    var s' := DispatchParts(Station(6), 1, 1, [0], BEHIND);
    SameParts(s', Station(7));
  }

  lemma Move7()
    ensures Enabled(Station(7), Move(7)) && Step(Station(7), Move(7)) == Station(8)
  {
  }

  lemma Move8()
    ensures Enabled(Station(8), Move(8)) && Step(Station(8), Move(8)) == Station(9)
  {
  }

  lemma Move9()
    ensures Enabled(Station(9), Move(9)) && Step(Station(9), Move(9)) == Station(10)
  {
    var s' := Step(Station(9), Move(9));
    assert SignalsOf(Station(9).tasks, [0]) == [0];
    SameParts(s', Station(10));
  }

  lemma Move10()
    ensures Enabled(Station(10), Move(10)) && Step(Station(10), Move(10)) == Station(11)
  {
    var s' := Step(Station(10), Move(10));
    SameParts(s', Station(11));
  }

  lemma Move11()
    ensures Enabled(Station(11), Move(11)) && Step(Station(11), Move(11)) == Station(12)
  {
    var s' := Step(Station(11), Move(11));
    SameParts(s', Station(12));
  }

  lemma Move12()
    ensures Enabled(Station(12), Move(12)) && Step(Station(12), Move(12)) == Station(13)
  {
    var s' := Step(Station(12), Move(12));
    assert [0][..0] + [0][1..] == [];
    assert s'.queues[0] == [Barrier([], true, true)];
    SameParts(s', Station(13));
  }

  lemma Move13()
    ensures Enabled(Station(13), Move(13)) && Step(Station(13), Move(13)) == Station(14)
  {
    var s' := Step(Station(13), Move(13));
    SameParts(s', Station(14));
  }

  lemma Move14()
    ensures Enabled(Station(14), Move(14)) && Step(Station(14), Move(14)) == Station(15)
  {
  }

  lemma Move15()
    ensures Enabled(Station(15), Move(15)) && Step(Station(15), Move(15)) == Station(16)
  {
    var s' := Step(Station(15), Move(15));
    SameParts(s', Station(16));
  }

  lemma Move16()
    ensures Enabled(Station(16), Move(16)) && Step(Station(16), Move(16)) == Station(17)
  {
    var s' := Step(Station(16), Move(16));
    SameParts(s', Station(17));
  }

  lemma Move17()
    ensures Enabled(Station(17), Move(17)) && Step(Station(17), Move(17)) == Station(18)
  {
  }

  lemma MayMove18()
    ensures var s := Station(18); CanTry(s, 2, 1) && Goes(s, 2, true) && |s.groups[s.tasks[2].group].created| > 0
  {
    hide Unexecuted, SignalsOf;
  }

  lemma Move18()
    ensures Enabled(Station(18), Move(18)) && Step(Station(18), Move(18)) == Station(19)
  {
    hide Step, DispatchNow, Unexecuted, SignalsOf, DispatchPackets, BarrierPackets, CanTry, Goes;
    MayMove18();
    NothingToWaitFor(Station(18).tasks, 2);
    var s' := DispatchParts(Station(18), 2, 1, [], [Slot(2)]);
    SameParts(s', Station(19));
  }

  lemma EveryMove(k: nat)
    requires k < 19
    ensures Enabled(Station(k), Move(k)) && Step(Station(k), Move(k)) == Station(k + 1)
  {
    hide Station, Move, Step, Enabled;
    match k
    case 0 => Move0();
    case 1 => Move1();
    case 2 => Move2();
    case 3 => Move3();
    case 4 => Move4();
    case 5 => Move5();
    case 6 => Move6();
    case 7 => Move7();
    case 8 => Move8();
    case 9 => Move9();
    case 10 => Move10();
    case 11 => Move11();
    case 12 => Move12();
    case 13 => Move13();
    case 14 => Move14();
    case 15 => Move15();
    case 16 => Move16();
    case 17 => Move17();
    case _ => assert k == 18; Move18();
  }

  lemma {:induction false} ToStation(k: nat) returns (es: seq<BEvent>)
    requires k <= 19
    ensures Reaches(Station(0), es, Station(k))
  {
    if k == 0 {
      es := [];
    } else {
      var before := ToStation(k - 1);
      EveryMove(k - 1);
      hide Station, Step, Enabled, Reaches;
      Extend(Station(0), before, Station(k - 1), Move(k - 1), Station(k));
      es := before + [Move(k - 1)];
    }
  }

  /** In the last state task 1 depends on task 2, and task 2 on itself. */
  lemma LastStation()
    ensures var s := Station(19); DependsOn(s, 1, 2) && DependsOn(s, 2, 2)
    ensures Station(19).tasks[1].preds == [0] && Station(19).tasks[0].finished
  {
    var queue := Station(19).queues[1];
    assert queue[1] == Slot(1) && queue[2] == Slot(2) && queue[0] == Barrier([0], true, false);
    assert Awaits(queue, 1, 0) && Awaits(queue, 2, 0);
    assert HeldUp(queue, 1, 0) && HeldUp(queue, 2, 0);
  }

  lemma StartsEmpty()
    ensures Initial(Station(0))
  {
  }

  /**
    The scheduler does get there: a run from an initial state leads to task 1 READY, its only predecessor finished,
    and a cycle before it; and in no continuation does task 1 start, or task 2.
   */
  lemma {:induction false} RecycledSignalBlocks(more: seq<BEvent>) returns (es: seq<BEvent>)
    requires Possible(Station(19), more)
    ensures Initial(Station(0)) && Reaches(Station(0), es, Station(19)) && HasCycle(Station(19))
    ensures Station(19).tasks[1].preds == [0] && Station(19).tasks[0].finished
    ensures |Exec(Station(19), more).tasks| > 2
    ensures !Exec(Station(19), more).tasks[1].started && !Exec(Station(19), more).tasks[2].started
  {
    es := ToStation(19);
    LastStation();
    StartsEmpty();
    hide Exec, Possible, Station, DependsOn, LeadsToCycle, HasCycle, Initial;
    Leads(Station(19), 1, 2);
    CycleBlocks(Station(0), es, more, 1);
    CycleBlocks(Station(0), es, more, 2);
  }

  lemma Leads(s: BState, a: nat, b: nat)
    requires DependsOn(s, a, b) && DependsOn(s, b, b)
    ensures LeadsToCycle(s, a) && LeadsToCycle(s, b) && HasCycle(s)
  {
    hide DependsOn;
    assert Lasso(s, [b], 0) && [b][0] == b;
    assert Lasso(s, [a, b], 1) && [a, b][0] == a;
  }
}
