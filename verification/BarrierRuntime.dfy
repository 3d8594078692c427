/**
  The barrier-packet scheduler as the program runs it: one object holding the shared state, whose methods loop
  over predecessors, sinks and batch members, each tied to the step it takes.
 */
module BarrierRuntime {
  import opened Wrappers
  import opened TaskStates
  import opened Bags
  import opened BarrierMode
  import opened BarrierInvariant
  import opened BarrierSteps
  import opened BarrierDispatch
  import opened BarrierBatch
  import opened BarrierSafety

  class Scheduler {
    const maxSignals: nat
    var tasks: seq<BTask>
    var queues: seq<seq<Packet>>
    var groups: seq<Group>
    var freeSignals: seq<nat>
    var signalValue: seq<int>
    ghost var peeked: set<nat>
    var batch: Batch

    ghost function Shared(): BState
      reads this
    {
      BState(maxSignals, tasks, queues, groups, freeSignals, signalValue, peeked, batch)
    }

    ghost predicate Valid()
      reads this
    {
      Inv(Shared())
    }

    constructor (signals: nat, queueCount: nat, groupCount: nat)
      ensures Initial(Shared()) && Valid()
      ensures maxSignals == signals && |queues| == queueCount && |groups| == groupCount
    {
      maxSignals := signals;
      tasks := [];
      queues := seq(queueCount, _ => []);
      groups := seq(groupCount, _ => Group([], [], {}));
      freeSignals := Ids(signals);
      signalValue := seq(signals, _ => 0);
      peeked := {};
      batch := NoBatch;
      new;
      InitialHolds(Shared());
    }

    /** The head of created_tasks_, under the group's mutex. */
    method PeekHead(g: nat) returns (head: Option<nat>)
      requires Valid() && g < |groups|
      modifies this`peeked
      ensures Valid()
      ensures head.None? <==> groups[g].created == []
      ensures head.Some? ==> head.value == groups[g].created[0] && Shared() == Step(old(Shared()), Peek(g))
      ensures head.None? ==> Shared() == old(Shared())
    {
      if groups[g].created == [] {
        return None;
      }
      PeekStepKeeps(Shared(), g);
      peeked := peeked + {groups[g].created[0]};
      return Some(groups[g].created[0]);
    }

    /** Whether all predecessors have been dispatched. */
    method DependenciesDispatched(preds: seq<nat>) returns (ok: bool)
      requires forall j :: 0 <= j < |preds| ==> preds[j] < |tasks|
      ensures ok == PredsDispatched(tasks, preds)
    {
      ok := true;
      for i := 0 to |preds|
        invariant ok == forall j :: 0 <= j < i ==> tasks[preds[j]].status.Rank() >= Dispatched.Rank()
      {
        if tasks[preds[i]].status.Rank() < Dispatched.Rank() {
          ok := false;
        }
      }
    }

    /** and_predecessors_: the predecessors that have not executed. */
    method CollectAndPredecessors(preds: seq<nat>) returns (andPreds: seq<nat>)
      requires forall j :: 0 <= j < |preds| ==> preds[j] < |tasks|
      ensures andPreds == Unexecuted(tasks, preds)
    {
      andPreds := [];
      assert preds[..0] == [] && Unexecuted(tasks, []) == [];
      hide Unexecuted;
      for i := 0 to |preds|
        invariant andPreds == Unexecuted(tasks, preds[..i])
      {
        UnexecutedAppend(tasks, preds[..i], preds[i]);
        assert preds[..i] + [preds[i]] == preds[..i + 1];
        if tasks[preds[i]].status.Rank() < Executed.Rank() {
          andPreds := andPreds + [preds[i]];
        }
      }
      assert preds[..|preds|] == preds;
    }

    /** Erase the and-predecessors from the sinks one by one. */
    method EraseSinks(sinks: set<nat>, andPreds: seq<nat>) returns (left: set<nat>)
      ensures left == sinks - ToSet(andPreds)
    {
      left := sinks;
      for i := 0 to |andPreds|
        invariant left == sinks - ToSet(andPreds[..i])
      {
        assert ToSet(andPreds[..i + 1]) == ToSet(andPreds[..i]) + {andPreds[i]};
        left := left - {andPreds[i]};
      }
      assert andPreds[..|andPreds|] == andPreds;
    }

    /** The signals of tasks, in order. */
    method CollectSignals(ids: seq<nat>) returns (sigs: seq<nat>)
      requires forall j :: 0 <= j < |ids| ==> ids[j] < |tasks|
      ensures sigs == SignalsOf(tasks, ids)
    {
      sigs := [];
      for i := 0 to |ids|
        invariant |sigs| == i && forall j :: 0 <= j < i ==> sigs[j] == tasks[ids[j]].signal
      {
        sigs := sigs + [tasks[ids[i]].signal];
      }
      assert sigs == SignalsOf(tasks, ids);
    }

    /** The part of `tryDispatchBarrierPacket` behind `should_dispatch`: signal, barriers, packet, READY. */
    method DispatchBehindBarriers(t: nat, q: nat)
      requires CanTry(Shared(), t, q) && |freeSignals| > 0 && |groups[tasks[t].group].created| > 0
      modifies this
      ensures Shared() == DispatchNow(old(Shared()), t, q)
    {
      hide DispatchPackets, DispatchNow;
      ghost var was := Shared();
      var task := tasks[t];
      var newSignal := freeSignals[0];
      var andPreds := CollectAndPredecessors(task.preds);
      var sinks := EraseSinks(groups[task.group].sinks + {t}, andPreds);
      var sigs := CollectSignals(andPreds);
      var record := Group(groups[task.group].created[1..], groups[task.group].dispatched + [t], sinks);
      hide SignalsOf, Unexecuted;
      freeSignals, signalValue := freeSignals[1..], signalValue[newSignal := signalValue[newSignal] + 1];
      groups, queues := groups[task.group := record], queues[q := queues[q] + DispatchPackets(sigs, t)];
      tasks := tasks[t := task.(status := Ready, signal := newSignal, andPreds := andPreds)];
      DispatchParts(was, Shared(), t, q, andPreds, record);
    }

    /** `tryDispatchBarrierPacket` for the task peeked at, in its locked section. */
    method TryDispatchBarrierPacket(t: nat, q: nat, segmentFree: bool) returns (dispatched: bool)
      requires Valid() && CanTry(Shared(), t, q)
      modifies this
      ensures Valid() && Shared() == DoTry(old(Shared()), t, q, segmentFree)
      ensures forall j :: 0 <= j < |old(tasks[t].preds)| ==> old(tasks[t].preds)[j] < |old(tasks)|
      ensures dispatched <==>
              && old(tasks[t].status).Rank() < Ready.Rank() && old(freeSignals) != [] && segmentFree
              && forall j :: 0 <= j < |old(tasks[t].preds)| ==>
                   old(tasks)[old(tasks[t].preds)[j]].status.Rank() >= Dispatched.Rank()
    {
      hide Inv, DispatchNow;
      TryKeeps(Shared(), t, q, segmentFree);
      if tasks[t].status.Rank() >= Ready.Rank() {
        return false;
      }
      dispatched := DependenciesDispatched(tasks[t].preds);
      if dispatched && (freeSignals == [] || !segmentFree) {
        dispatched := false;
      }
      if dispatched {
        DispatchBehindBarriers(t, q);
      } else {
        tasks := tasks[t := tasks[t].(status := Initialized, andPreds := [])];
      }
    }

    /** A set's elements in its iteration order. */
    method Elements(ids: set<nat>) returns (list: seq<nat>)
      ensures ToSet(list) == ids && Distinct(list)
      ensures ids != {} ==> |list| > 0
    {
      list := [];
      var left := ids;
      while left != {}
        invariant left + ToSet(list) == ids && left !! ToSet(list) && Distinct(list)
        invariant left != ids ==> |list| > 0
      {
        var k :| k in left;
        assert k !in list && ToSet(list + [k]) == ToSet(list) + {k};
        left, list := left - {k}, list + [k];
      }
    }

    /** Take the dispatched tasks off a group, if it has sinks. */
    method SealBatch(g: nat) returns (sealed: bool)
      requires Valid() && g < |groups| && batch == NoBatch
      modifies this`groups, this`batch
      ensures Valid() && sealed == (old(groups[g].sinks) != {})
      ensures sealed ==> batch.Sealed? && CanSeal(old(Shared()), g, batch.sinks) && Distinct(batch.sinks)
      ensures sealed ==> Shared() == DoSeal(old(Shared()), g, batch.sinks)
      ensures !sealed ==> Shared() == old(Shared())
    {
      hide Inv;
      sealed := groups[g].sinks != {};
      if sealed {
        var sinks := Elements(groups[g].sinks);
        SealKeeps(Shared(), g, sinks);
        batch := Sealed(groups[g].dispatched, sinks);
        groups := groups[g := groups[g].(dispatched := [], sinks := {})];
      }
    }

    /** `enqueue_barrier_tasks`: one more barrier, on all sinks, whose completion runs the handler. */
    method EnqueueBarrierTasks(q: nat)
      requires Valid() && CanEnqueue(Shared(), q)
      modifies this`queues, this`batch
      ensures Valid() && Shared() == DoEnqueue(old(Shared()), q)
    {
      hide Inv;
      EnqueueKeeps(Shared(), q);
      var sigs := CollectSignals(batch.sinks);
      queues := queues[q := queues[q] + BarrierPackets(sigs, true)];
      batch := Enqueued(batch.members, batch.sinks, q);
    }

    /** One round of the handler's loop: EXECUTED under the task's mutex, then its signal back and COMPLETED. */
    method CompleteMember()
      requires Valid() && CanMark(Shared())
      modifies this`tasks, this`freeSignals, this`batch
      ensures Valid() && CanReclaim(DoMark(old(Shared()))) && Shared() == DoReclaim(DoMark(old(Shared())))
      ensures batch == Handling(old(batch.members), old(batch.i) + 1, false)
      ensures tasks == WithCompleted(old(tasks), old(batch.members)[old(batch.i)])
      ensures freeSignals == old(freeSignals) + [old(tasks[batch.members[batch.i]]).signal]
    {
      hide Inv;
      var m := batch.members[batch.i];
      MarkKeeps(Shared());
      tasks := tasks[m := tasks[m].(status := Executed)];
      batch := Handling(batch.members, batch.i, true);
      ReclaimKeeps(Shared());
      freeSignals := freeSignals + [tasks[m].signal];
      tasks := tasks[m := tasks[m].(status := Completed)];
      batch := Handling(batch.members, batch.i + 1, false);
    }

    method CompleteNext(ghost was: BState, ghost i: nat)
      requires HandledUpTo(was, Shared(), i) && i < |was.batch.members|
      modifies this`tasks, this`freeSignals, this`batch
      ensures HandledUpTo(was, Shared(), i + 1)
    {
      hide Inv, DoMark, DoReclaim, SignalsOf, CompletedAll, WithCompleted;
      MayMark(Shared());
      CompletedNext(was.tasks, was.batch.members, i);
      SignalsNext(was.tasks, was.batch.members, i);
      CompleteMember();
    }

    /**
      `handle_signal_barrier_pkt`, with nobody in between: every task of the batch is completed and its signal
      goes back to the pool, in order; nothing else changes.
     */
    method HandleSignalBarrierPkt()
      requires Valid() && batch.Handling? && batch.i == 0 && !batch.executed
      modifies this`tasks, this`freeSignals, this`batch
      ensures Valid() && batch == NoBatch
      ensures forall j :: 0 <= j < |old(batch.members)| ==> old(batch.members)[j] < |old(tasks)|
      ensures tasks == CompletedAll(old(tasks), old(batch.members), |old(batch.members)|)
      ensures freeSignals == old(freeSignals) + SignalsOf(old(tasks), old(batch.members))
    {
      hide Inv, SignalsOf, CompletedAll, HandledUpTo;
      ghost var was := Shared();
      var members := batch.members;
      HandlingStarts(was);
      for i := 0 to |members|
        invariant HandledUpTo(was, Shared(), i)
      {
        CompleteNext(was, i);
      }
      HandlingEnds(was, Shared());
      batch := NoBatch;
    }
  }

  /** A dispatch by its parts. */
  lemma DispatchParts(s: BState, s': BState, t: nat, q: nat, andPreds: seq<nat>, record: Group)
    requires CanTry(s, t, q) && |s.freeSignals| > 0 && |s.groups[s.tasks[t].group].created| > 0
    requires andPreds == Unexecuted(s.tasks, s.tasks[t].preds)
    requires record == Record(s.groups[s.tasks[t].group], t, andPreds)
    requires s' == s.(freeSignals := s'.freeSignals, signalValue := s'.signalValue, tasks := s'.tasks,
                      groups := s.groups[s.tasks[t].group := record], queues := s'.queues)
    requires s'.freeSignals == s.freeSignals[1..]
    requires s'.signalValue == s.signalValue[s.freeSignals[0] := s.signalValue[s.freeSignals[0]] + 1]
    requires s'.tasks == s.tasks[t := s.tasks[t].(status := Ready, signal := s.freeSignals[0], andPreds := andPreds)]
    requires s'.queues == s.queues[q := s.queues[q] + DispatchPackets(SignalsOf(s.tasks, andPreds), t)]
    ensures s' == DispatchNow(s, t, q)
  {
    hide DispatchPackets, SignalsOf, Unexecuted, Record;
  }

  /** The handler's state s when it has completed the first i members of its batch, having started at was. */
  ghost predicate HandledUpTo(was: BState, s: BState, i: nat) {
    && Inv(s) && was.batch.Handling? && i <= |was.batch.members| && s.batch == Handling(was.batch.members, i, false)
    && (forall j :: 0 <= j < |was.batch.members| ==> was.batch.members[j] < |was.tasks|)
    && s.tasks == CompletedAll(was.tasks, was.batch.members, i)
    && s.freeSignals == was.freeSignals + SignalsOf(was.tasks, was.batch.members[..i])
  }

  lemma HandlingStarts(s: BState)
    requires Inv(s) && s.batch.Handling? && s.batch.i == 0 && !s.batch.executed
    ensures HandledUpTo(s, s, 0)
  {
    MembersExist(s);
    hide Inv;
    assert CompletedAll(s.tasks, s.batch.members, 0) == s.tasks;
  }

  lemma HandlingEnds(was: BState, s: BState)
    requires was.batch.Handling? && HandledUpTo(was, s, |was.batch.members|)
    ensures Inv(s.(batch := NoBatch))
    ensures forall j :: 0 <= j < |was.batch.members| ==> was.batch.members[j] < |was.tasks|
    ensures s.tasks == CompletedAll(was.tasks, was.batch.members, |was.batch.members|)
    ensures s.freeSignals == was.freeSignals + SignalsOf(was.tasks, was.batch.members)
  {
    hide Inv;
    assert was.batch.members[..|was.batch.members|] == was.batch.members;
    EndKeeps(s);
  }

  /** The tasks after the first n members of a batch have been completed. */
  ghost function CompletedAll(tasks: seq<BTask>, members: seq<nat>, n: nat): (r: seq<BTask>)
    requires n <= |members|
    ensures |r| == |tasks|
  {
    seq(|tasks|, t requires 0 <= t < |tasks| => if t in members[..n] then tasks[t].(status := Completed) else tasks[t])
  }

  lemma MembersExist(s: BState)
    requires Inv(s) && s.batch.Handling?
    ensures forall j :: 0 <= j < |s.batch.members| ==> s.batch.members[j] < |s.tasks|
  {
    assert forall j :: 0 <= j < |s.batch.members| ==> Finished(s.tasks, s.batch.members[j]);
  }

  ghost function WithCompleted(tasks: seq<BTask>, m: nat): seq<BTask>
    requires m < |tasks|
  {
    tasks[m := tasks[m].(status := Completed)]
  }

  lemma CompletedNext(was: seq<BTask>, members: seq<nat>, i: nat)
    requires i < |members| && members[i] < |was|
    ensures WithCompleted(CompletedAll(was, members, i), members[i]) == CompletedAll(was, members, i + 1)
    ensures CompletedAll(was, members, i)[members[i]].signal == was[members[i]].signal
  {
    assert members[..i + 1] == members[..i] + [members[i]];
  }

  lemma MayMark(s: BState)
    requires Inv(s) && s.batch.Handling? && s.batch.i < |s.batch.members| && !s.batch.executed
    ensures CanMark(s)
  {
    MembersExist(s);
  }

  ghost predicate Distinct(ids: seq<nat>) {
    forall i, j :: 0 <= i < j < |ids| ==> ids[i] != ids[j]
  }

  lemma {:induction false} UnexecutedAppend(tasks: seq<BTask>, ids: seq<nat>, p: nat)
    requires (forall j :: 0 <= j < |ids| ==> ids[j] < |tasks|) && p < |tasks|
    ensures Unexecuted(tasks, ids + [p]) ==
            Unexecuted(tasks, ids) + if tasks[p].status.Rank() < Executed.Rank() then [p] else []
  {
    if |ids| == 0 {
      assert ids + [p] == [p];
    } else {
      assert (ids + [p])[1..] == ids[1..] + [p];
      UnexecutedAppend(tasks, ids[1..], p);
    }
  }

  lemma SignalsNext(tasks: seq<BTask>, ids: seq<nat>, i: nat)
    requires (forall j :: 0 <= j < |ids| ==> ids[j] < |tasks|) && i < |ids|
    ensures SignalsOf(tasks, ids[..i + 1]) == SignalsOf(tasks, ids[..i]) + [tasks[ids[i]].signal]
  {
    var now, next := SignalsOf(tasks, ids[..i]), SignalsOf(tasks, ids[..i + 1]);
    hide SignalsOf;
    assert forall j :: 0 <= j < |next| ==> next[j] == (now + [tasks[ids[i]].signal])[j];
  }
}
