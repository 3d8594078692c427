/** What every step of the barrier-packet scheduler keeps. */
module BarrierInvariant {
  import opened TaskStates
  import opened Bags
  import opened BarrierMode

  // ---------------------------------------------------------------- the invariant

  ghost predicate TaskOk(s: BState, i: nat)
    requires i < |s.tasks|
  {
    var t := s.tasks[i];
    && (forall j :: 0 <= j < |t.preds| ==> t.preds[j] < i)
    && t.group < |s.groups|
    && (forall j :: 0 <= j < |t.andPreds| ==> t.andPreds[j] in t.preds)
    && (t.finished ==> t.started)
    && (t.started ==> t.status.Rank() >= Dispatched.Rank())
    && (t.status.Rank() >= Executed.Rank() ==> t.finished)
    && (t.status.Rank() < Ready.Rank() ==> t.andPreds == [])
  }

  ghost predicate Tasks(s: BState) {
    forall i {:trigger TaskOk(s, i)} {:trigger s.tasks[i]} :: 0 <= i < |s.tasks| ==> TaskOk(s, i)
  }

  /** A task owns its signal from its dispatch until the handler has returned it. */
  predicate Owns(t: BTask) {
    Ready.Rank() <= t.status.Rank() < Completed.Rank()
  }

  ghost function OwnedSignal(t: BTask): multiset<nat> {
    if Owns(t) then multiset{t.signal} else multiset{}
  }

  ghost predicate SignalPool(s: BState) {
    EachOnce(multiset(s.freeSignals) + Total(s.tasks, OwnedSignal), s.maxSignals)
  }

  /** An owned signal is 1 until its task has finished; free signals are 0. */
  ghost predicate SignalValues(s: BState) {
    && |s.signalValue| == s.maxSignals
    && (forall j :: 0 <= j < |s.freeSignals| ==>
          s.freeSignals[j] < s.maxSignals && s.signalValue[s.freeSignals[j]] == 0)
    && forall i :: 0 <= i < |s.tasks| && Owns(s.tasks[i]) ==>
         s.tasks[i].signal < s.maxSignals && s.signalValue[s.tasks[i].signal] == if s.tasks[i].finished then 0 else 1
  }

  ghost function DispatchedOf(g: Group): multiset<nat> {
    multiset(g.dispatched)
  }

  /** The batch members whose signal has not been returned. */
  ghost function BatchRest(b: Batch): multiset<nat> {
    match b
    case NoBatch => multiset{}
    case Sealed(members, _) => multiset(members)
    case Enqueued(members, _, _) => multiset(members)
    case Handling(members, i, _) => if i <= |members| then multiset(members[i..]) else multiset{}
  }

  ghost function FlightBag(s: BState): multiset<nat> {
    Total(s.groups, DispatchedOf) + BatchRest(s.batch)
  }

  /** Each task that owns a signal is in dispatched_tasks_ of one group or in the batch, once. */
  ghost predicate InFlight(s: BState) {
    forall t: nat :: FlightBag(s)[t] == if t < |s.tasks| && Owns(s.tasks[t]) then 1 else 0
  }

  /** Nothing starts before what it requires has finished. */
  ghost predicate Safe(tasks: seq<BTask>) {
    forall t, j :: 0 <= t < |tasks| && tasks[t].started && 0 <= j < |tasks[t].preds| ==>
      Finished(tasks, tasks[t].preds[j])
  }

  predicate Finished(tasks: seq<BTask>, p: nat) {
    p < |tasks| && tasks[p].finished
  }

  /** One of the first n packets still has to see signal g at 0. */
  ghost predicate Awaits(queue: seq<Packet>, n: nat, g: nat) {
    exists j :: 0 <= j < n && j < |queue| && queue[j].Barrier? && g in queue[j].waiting
  }

  ghost predicate Shielded(tasks: seq<BTask>, queue: seq<Packet>, n: nat, p: nat) {
    && p < |tasks| && tasks[p].status.Rank() >= Ready.Rank()
    && (tasks[p].finished || Awaits(queue, n, tasks[p].signal))
  }

  /** Every slot on a queue stands behind a barrier for each predecessor that has not finished. */
  ghost predicate SlotOk(tasks: seq<BTask>, queue: seq<Packet>, i: nat)
    requires i < |queue|
  {
    queue[i].Slot? ==>
      && queue[i].task < |tasks| && tasks[queue[i].task].status.Rank() >= Ready.Rank()
      && forall j :: 0 <= j < |tasks[queue[i].task].preds| ==>
           Shielded(tasks, queue, i, tasks[queue[i].task].preds[j])
  }

  ghost predicate QueueOk(tasks: seq<BTask>, queue: seq<Packet>) {
    forall i {:trigger SlotOk(tasks, queue, i)} {:trigger queue[i]} :: 0 <= i < |queue| ==> SlotOk(tasks, queue, i)
  }

  ghost predicate Queues(s: BState) {
    forall q {:trigger s.queues[q]} :: 0 <= q < |s.queues| ==> QueueOk(s.tasks, s.queues[q])
  }

  /** Whoever is not a sink is an and-predecessor of another member. */
  ghost predicate CoveredIn(tasks: seq<BTask>, members: seq<nat>, sinks: set<nat>, d: nat) {
    d in sinks || exists k :: 0 <= k < |members| && members[k] < |tasks| && d in tasks[members[k]].andPreds
  }

  ghost predicate Closed(tasks: seq<BTask>, members: seq<nat>, sinks: set<nat>) {
    && (forall k :: 0 <= k < |members| ==> members[k] < |tasks| && tasks[members[k]].status.Rank() >= Ready.Rank())
    && (forall k :: 0 <= k < |members| ==> CoveredIn(tasks, members, sinks, members[k]))
    && forall d :: d in sinks ==> d in members
  }

  ghost predicate Sinks(s: BState) {
    forall g {:trigger s.groups[g]} :: 0 <= g < |s.groups| ==>
      Closed(s.tasks, s.groups[g].dispatched, s.groups[g].sinks)
  }

  /** No barrier on the queue signals the batch, but for those of the given queue. */
  ghost predicate Quiet(queue: seq<Packet>) {
    forall i :: 0 <= i < |queue| && queue[i].Barrier? ==> !queue[i].notify
  }

  ghost predicate NotifyOnly(s: BState, q: nat) {
    forall k :: 0 <= k < |s.queues| && k != q ==> Quiet(s.queues[k])
  }

  /** The batch's barrier, at position n of its queue, comes after waiting for every sink. */
  ghost predicate BatchBarrier(tasks: seq<BTask>, queue: seq<Packet>, sinks: seq<nat>, n: nat)
    requires n < |queue|
  {
    && Quiet(queue[..n]) && Quiet(queue[n + 1..])
    && queue[n].Barrier? && queue[n].notify
    && forall j :: 0 <= j < |sinks| ==> Shielded(tasks, queue, n + 1, sinks[j])
  }

  ghost predicate BatchOk(s: BState) {
    match s.batch
    case NoBatch => forall k :: 0 <= k < |s.queues| ==> Quiet(s.queues[k])
    case Sealed(members, sinks) =>
      && (forall k :: 0 <= k < |s.queues| ==> Quiet(s.queues[k]))
      && Closed(s.tasks, members, ToSet(sinks))
    case Enqueued(members, sinks, q) =>
      && q < |s.queues| && NotifyOnly(s, q)
      && Closed(s.tasks, members, ToSet(sinks))
      && exists n :: 0 <= n < |s.queues[q]| && BatchBarrier(s.tasks, s.queues[q], sinks, n)
    case Handling(members, i, executed) =>
      && (forall k :: 0 <= k < |s.queues| ==> Quiet(s.queues[k]))
      && i <= |members| && (executed ==> i < |members|)
      && forall k :: 0 <= k < |members| ==> Finished(s.tasks, members[k])
  }

  /** A task somebody has peeked at is still the head of its group's created tasks, or has been dispatched. */
  ghost predicate PeekOk(s: BState, t: nat) {
    && t < |s.tasks| && s.tasks[t].group < |s.groups|
    && (s.tasks[t].status.Rank() < Ready.Rank() ==>
          |s.groups[s.tasks[t].group].created| > 0 && s.groups[s.tasks[t].group].created[0] == t)
  }

  ghost predicate Peeks(s: BState) {
    forall t :: t in s.peeked ==> PeekOk(s, t)
  }

  ghost predicate CreatedOk(s: BState) {
    forall g {:trigger s.groups[g]} :: 0 <= g < |s.groups| ==>
      forall k :: 0 <= k < |s.groups[g].created| ==>
        s.groups[g].created[k] < |s.tasks| && s.tasks[s.groups[g].created[k]].group == g
  }

  ghost predicate Inv(s: BState) {
    && Tasks(s) && SignalPool(s) && SignalValues(s) && InFlight(s) && Safe(s.tasks)
    && Queues(s) && Sinks(s) && BatchOk(s) && Peeks(s) && CreatedOk(s)
  }

  // ---------------------------------------------------------------- facts about owners

  lemma OwnedIsNotFree(s: BState, i: nat)
    requires SignalPool(s) && i < |s.tasks| && Owns(s.tasks[i])
    ensures s.tasks[i].signal !in s.freeSignals
  {
    TotalHas(s.tasks, i, OwnedSignal);
    var all := multiset(s.freeSignals) + Total(s.tasks, OwnedSignal);
    assert OwnedSignal(s.tasks[i])[s.tasks[i].signal] == 1;
    assert all[s.tasks[i].signal] <= 1;
  }

  lemma OwnersDiffer(s: BState, i: nat, j: nat)
    requires SignalPool(s) && i < |s.tasks| && j < |s.tasks| && i != j && Owns(s.tasks[i]) && Owns(s.tasks[j])
    ensures s.tasks[i].signal != s.tasks[j].signal
  {
    var a, b := if i < j then i else j, if i < j then j else i;
    TotalHasBoth(s.tasks, a, b, OwnedSignal);
    var all := multiset(s.freeSignals) + Total(s.tasks, OwnedSignal);
    assert OwnedSignal(s.tasks[i])[s.tasks[i].signal] == 1;
    assert all[s.tasks[i].signal] <= 1;
  }

  /** A signal that is 0 is not that of a dispatched task still running or waiting to run. */
  lemma ZeroIsNotUnfinished(s: BState, p: nat, g: nat)
    requires Tasks(s) && SignalValues(s) && p < |s.tasks| && g < |s.signalValue| && s.signalValue[g] == 0
    requires s.tasks[p].status.Rank() >= Ready.Rank() && !s.tasks[p].finished
    ensures s.tasks[p].signal != g
  {
    assert TaskOk(s, p);
    assert Owns(s.tasks[p]);
  }

  // ---------------------------------------------------------------- sink sets

  /**
    Sink-set soundness: when the sinks of a batch have finished, so has every member, since a member that is no
    sink is an and-predecessor of a later member, which could not start before it.
   */
  lemma {:induction false} SinksFinishLast(s: BState, members: seq<nat>, sinks: set<nat>, d: nat)
    requires Tasks(s) && Safe(s.tasks) && Closed(s.tasks, members, sinks) && d in members
    requires forall k :: k in sinks ==> Finished(s.tasks, k)
    ensures Finished(s.tasks, d)
    decreases |s.tasks| - d
  {
    var i :| 0 <= i < |members| && members[i] == d;
    assert CoveredIn(s.tasks, members, sinks, members[i]);
    if d !in sinks {
      var k :| 0 <= k < |members| && members[k] < |s.tasks| && d in s.tasks[members[k]].andPreds;
      var t := members[k];
      assert TaskOk(s, t);
      var j :| 0 <= j < |s.tasks[t].andPreds| && s.tasks[t].andPreds[j] == d;
      assert d in s.tasks[t].preds;
      var m :| 0 <= m < |s.tasks[t].preds| && s.tasks[t].preds[m] == d;
      SinksFinishLast(s, members, sinks, t);
      assert Finished(s.tasks, s.tasks[t].preds[m]);
    }
  }

  /** The path behind it: from any member along and_predecessors_ edges to a sink. */
  ghost predicate SinkPath(tasks: seq<BTask>, members: seq<nat>, path: seq<nat>) {
    && |path| > 0 && (forall i :: 0 <= i < |path| ==> path[i] in members && path[i] < |tasks|)
    && forall i :: 0 <= i < |path| - 1 ==> path[i] in tasks[path[i + 1]].andPreds
  }

  lemma PathFrom(tasks: seq<BTask>, members: seq<nat>, d: nat, rest: seq<nat>) returns (path: seq<nat>)
    requires SinkPath(tasks, members, rest) && d in members && d < |tasks| && d in tasks[rest[0]].andPreds
    ensures path == [d] + rest && SinkPath(tasks, members, path)
  {
    path := [d] + rest;
    assert forall m :: 0 <= m < |path| - 1 ==> path[m + 1] == rest[m];
    assert forall m :: 0 < m < |path| ==> path[m] == rest[m - 1];
  }

  lemma {:induction false} ReachesSink(s: BState, members: seq<nat>, sinks: set<nat>, d: nat) returns (path: seq<nat>)
    requires Tasks(s) && Closed(s.tasks, members, sinks) && d in members
    ensures SinkPath(s.tasks, members, path) && path[0] == d && path[|path| - 1] in sinks
    decreases |s.tasks| - d
  {
    var i :| 0 <= i < |members| && members[i] == d;
    assert CoveredIn(s.tasks, members, sinks, members[i]);
    if d in sinks {
      path := [d];
    } else {
      var k :| 0 <= k < |members| && members[k] < |s.tasks| && d in s.tasks[members[k]].andPreds;
      var t := members[k];
      assert TaskOk(s, t);
      assert d in s.tasks[t].preds;
      hide Tasks, Closed;
      var rest := ReachesSink(s, members, sinks, t);
      path := PathFrom(s.tasks, members, d, rest);
    }
  }
}
