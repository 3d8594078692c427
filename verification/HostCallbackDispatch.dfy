/** `tryDispatchHostCallback` keeps the invariant. */
module HostCallbackDispatch {
  import opened Wrappers
  import opened Bags
  import opened TaskStates
  import opened HostCallback
  import opened HostCallbackInvariant
  import opened HostCallbackSteps

  // ---------------------------------------------------------------- the linking loop

  ghost predicate CountsOf(tasks: seq<Task>) {
    forall i: nat :: Total(tasks, Unnotified)[i] == if i < |tasks| then tasks[i].numPreds else 0
  }

  ghost predicate ListsOf(tasks: seq<Task>) {
    forall i :: 0 <= i < |tasks| ==>
      tasks[i].notified <= |tasks[i].succs| &&
      forall j :: 0 <= j < |tasks[i].succs| ==> i < tasks[i].succs[j] < |tasks|
  }

  lemma LinkOneLists(tasks: seq<Task>, t: nat, p: nat)
    requires p < t < |tasks| && ListsOf(tasks)
    ensures ListsOf(LinkOne(tasks, t, p))
  {
  }

  lemma {:induction false} LinkLists(tasks: seq<Task>, t: nat, todo: seq<nat>)
    requires t < |tasks| && ListsOf(tasks)
    requires forall j :: 0 <= j < |todo| ==> todo[j] < t
    ensures ListsOf(Link(tasks, t, todo))
    decreases |todo|
  {
    if |todo| > 0 {
      LinkOneLists(tasks, t, todo[0]);
      LinkLists(LinkOne(tasks, t, todo[0]), t, todo[1..]);
    }
  }

  lemma LinkAdds(x: Task, t: nat)
    requires x.notified <= |x.succs|
    ensures Unnotified(x.(succs := x.succs + [t])) == Unnotified(x) + multiset{t}
  {
    assert (x.succs + [t])[x.notified..] == x.succs[x.notified..] + [t];
  }

  lemma LinkOneCounts(tasks: seq<Task>, t: nat, p: nat)
    requires p < t < |tasks| && ListsOf(tasks) && CountsOf(tasks)
    ensures CountsOf(LinkOne(tasks, t, p))
  {
    if tasks[p].status.Rank() < Executed.Rank() {
      LinkTotals(tasks, t, p, LinkOne(tasks, t, p)[t]);
    }
  }

  lemma LinkTotals(tasks: seq<Task>, t: nat, p: nat, b: Task)
    requires p < t < |tasks| && tasks[p].notified <= |tasks[p].succs|
    requires b.succs == tasks[t].succs && b.notified == tasks[t].notified
    ensures var after := tasks[p := tasks[p].(succs := tasks[p].succs + [t])][t := b];
            forall i: nat :: Total(after, Unnotified)[i] == Total(tasks, Unnotified)[i] + if i == t then 1 else 0
  {
    var x := tasks[p].(succs := tasks[p].succs + [t]);
    LinkAdds(tasks[p], t);
    TotalUpdate(tasks, p, x, Unnotified);
    TotalSame(tasks[p := x], t, b, Unnotified);
    AddOne(Total(tasks[p := x][t := b], Unnotified), Total(tasks, Unnotified), Unnotified(tasks[p]), t);
  }

  lemma AddOne(a: multiset<nat>, b: multiset<nat>, c: multiset<nat>, t: nat)
    requires a + c == b + (c + multiset{t})
    ensures forall i: nat :: a[i] == b[i] + if i == t then 1 else 0
  {
    forall i: nat
      ensures a[i] == b[i] + if i == t then 1 else 0
    {
      assert (a + c)[i] == (b + (c + multiset{t}))[i];
    }
  }

  lemma {:induction false} LinkCounts(tasks: seq<Task>, t: nat, todo: seq<nat>)
    requires t < |tasks| && ListsOf(tasks) && CountsOf(tasks)
    requires forall j :: 0 <= j < |todo| ==> todo[j] < t
    ensures CountsOf(Link(tasks, t, todo))
    decreases |todo|
  {
    if |todo| > 0 {
      LinkOneLists(tasks, t, todo[0]);
      LinkOneCounts(tasks, t, todo[0]);
      LinkCounts(LinkOne(tasks, t, todo[0]), t, todo[1..]);
    }
  }

  /** A wait that has been recorded stays recorded. */
  lemma LinkOneKeepsCover(tasks: seq<Task>, t: nat, p: nat, i: nat, q: nat)
    requires p < t < |tasks| && ListsOf(tasks) && CoveredBy(tasks, i, q)
    ensures CoveredBy(LinkOne(tasks, t, p), i, q)
  {
    LinkAdds(tasks[p], t);
  }

  lemma {:induction false} LinkKeepsCover(tasks: seq<Task>, t: nat, todo: seq<nat>, i: nat, q: nat)
    requires t < |tasks| && ListsOf(tasks) && CoveredBy(tasks, i, q)
    requires forall j :: 0 <= j < |todo| ==> todo[j] < t
    ensures CoveredBy(Link(tasks, t, todo), i, q)
    decreases |todo|
  {
    if |todo| > 0 {
      LinkOneLists(tasks, t, todo[0]);
      LinkOneKeepsCover(tasks, t, todo[0], i, q);
      LinkKeepsCover(LinkOne(tasks, t, todo[0]), t, todo[1..], i, q);
    }
  }

  /** After the loop every predecessor has executed or knows about t. */
  lemma {:induction false} LinkCovers(tasks: seq<Task>, t: nat, todo: seq<nat>, j: nat)
    requires t < |tasks| && ListsOf(tasks) && j < |todo|
    requires forall k :: 0 <= k < |todo| ==> todo[k] < t
    ensures CoveredBy(Link(tasks, t, todo), t, todo[j])
    decreases |todo|
  {
    var tasks1 := LinkOne(tasks, t, todo[0]);
    LinkOneLists(tasks, t, todo[0]);
    if j == 0 {
      LinkAdds(tasks[todo[0]], t);
      assert CoveredBy(tasks1, t, todo[0]);
      LinkKeepsCover(tasks1, t, todo[1..], t, todo[0]);
    } else {
      LinkCovers(tasks1, t, todo[1..], j - 1);
    }
  }

  /** The count grows exactly when some predecessor has not executed. */
  lemma {:induction false} LinkNumPreds(tasks: seq<Task>, t: nat, todo: seq<nat>)
    requires t < |tasks|
    requires forall j :: 0 <= j < |todo| ==> todo[j] < t
    ensures Link(tasks, t, todo)[t].numPreds >= tasks[t].numPreds
    ensures PredsExecuted(tasks, todo) <==> Link(tasks, t, todo)[t].numPreds == tasks[t].numPreds
    decreases |todo|
  {
    if |todo| > 0 {
      var tasks1 := LinkOne(tasks, t, todo[0]);
      LinkNumPreds(tasks1, t, todo[1..]);
      assert PredsExecuted(tasks1, todo[1..]) <==> PredsExecuted(tasks, todo[1..]);
      assert todo == [todo[0]] + todo[1..];
    }
  }

  // ---------------------------------------------------------------- before the decision

  /** Everything holds but for task t, which is about to be parked, queued or dispatched. */
  ghost predicate TryShape(s: State, t: nat) {
    && Shape(s) && PhasesBut(s, Some(t)) && t < |s.tasks|
    && (s.tasks[t].status == Uninitialized || s.tasks[t].status == Initialized)
    && forall j :: 0 <= j < |s.tasks[t].preds| ==> CoveredBy(s.tasks, t, s.tasks[t].preds[j])
  }

  ghost predicate Tryable(s: State, t: nat) {
    && TryShape(s, t) && Links(s) && Resources(s) && Waiting(s, Some(t)) && Blocked(s)
  }

  lemma LinkedShape(s: State, t: nat)
    requires Shape(s) && t < |s.tasks|
    ensures Shape(s.(tasks := Link(s.tasks, t, s.tasks[t].preds)))
  {
    LinkKeepsTasks(s.tasks, t, s.tasks[t].preds);
    assert ListsOf(s.tasks) by {
      forall i | 0 <= i < |s.tasks| ensures TaskShape(s, i) {}
    }
    LinkLists(s.tasks, t, s.tasks[t].preds);
    var s1 := s.(tasks := Link(s.tasks, t, s.tasks[t].preds));
    forall i | 0 <= i < |s1.tasks|
      ensures TaskShape(s1, i)
    {
      assert TaskShape(s, i);
      assert SameButLinks(s.tasks[i], s1.tasks[i]);
    }
  }

  lemma LinkedPhases(s: State, t: nat)
    requires Shape(s) && Phases(s) && t < |s.tasks| && s.tasks[t].status == Uninitialized
    ensures PhasesBut(s.(tasks := Link(s.tasks, t, s.tasks[t].preds)), Some(t))
  {
    var s1 := s.(tasks := Link(s.tasks, t, s.tasks[t].preds));
    LinkKeepsTasks(s.tasks, t, s.tasks[t].preds);
    LinkKeepsExecuted(s.tasks, t, s.tasks[t].preds);
    forall i | 0 <= i < |s1.tasks|
      ensures TaskPhase(s1.tasks[i])
    {
      assert TaskPhase(s.tasks[i]);
      assert SameButLinks(s.tasks[i], s1.tasks[i]);
    }
    assert HandlerPhase(s1);
  }

  /** The list a handler walks does not grow once its task is EXECUTED. */
  lemma {:induction false} LinkKeepsExecuted(tasks: seq<Task>, t: nat, todo: seq<nat>)
    requires t < |tasks|
    requires forall j :: 0 <= j < |todo| ==> todo[j] < t
    ensures forall i :: 0 <= i < |tasks| && tasks[i].status.Rank() >= Executed.Rank() ==>
              Link(tasks, t, todo)[i].succs == tasks[i].succs
    decreases |todo|
  {
    if |todo| > 0 {
      LinkKeepsExecuted(LinkOne(tasks, t, todo[0]), t, todo[1..]);
    }
  }

  lemma LinkedLinks(s: State, t: nat)
    requires Shape(s) && Links(s) && t < |s.tasks| && s.tasks[t].status == Uninitialized
    ensures Links(s.(tasks := Link(s.tasks, t, s.tasks[t].preds)))
  {
    var s1 := s.(tasks := Link(s.tasks, t, s.tasks[t].preds));
    assert ListsOf(s.tasks) by {
      forall i | 0 <= i < |s.tasks| ensures TaskShape(s, i) {}
    }
    LinkKeepsTasks(s.tasks, t, s.tasks[t].preds);
    LinkCounts(s.tasks, t, s.tasks[t].preds);
    forall i, j | 0 <= i < |s1.tasks| && s1.tasks[i].status != Uninitialized && 0 <= j < |s1.tasks[i].preds|
      ensures CoveredBy(s1.tasks, i, s1.tasks[i].preds[j])
    {
      assert SameButLinks(s.tasks[i], s1.tasks[i]);
      LinkKeepsCover(s.tasks, t, s.tasks[t].preds, i, s.tasks[i].preds[j]);
    }
  }

  /** The same tasks, with other links. */
  ghost predicate OnlyLinks(a: seq<Task>, b: seq<Task>) {
    |a| == |b| && forall i :: 0 <= i < |a| ==> SameButLinks(a[i], b[i])
  }

  lemma LinkedSignals(s: State, tasks: seq<Task>)
    requires Signals(s) && OnlyLinks(s.tasks, tasks)
    ensures Signals(s.(tasks := tasks))
  {
    TotalPointwise(s.tasks, tasks, HeldSignal);
  }

  lemma LinkedSegments(s: State, tasks: seq<Task>)
    requires Segments(s) && OnlyLinks(s.tasks, tasks)
    ensures Segments(s.(tasks := tasks))
  {
    forall k | 0 <= k < |s.kernels|
      ensures SegmentsOf(s.(tasks := tasks), k)
    {
      assert SegmentsOf(s, k);
      TotalPointwise(s.tasks, tasks, HeldSegment(k));
    }
  }

  lemma LinkedMemory(s: State, tasks: seq<Task>)
    requires Memory(s) && OnlyLinks(s.tasks, tasks)
    ensures Memory(s.(tasks := tasks))
  {
    forall i | 0 <= i < |tasks| ensures SameButLinks(s.tasks[i], tasks[i]) {}
  }

  lemma LinkedHoldings(s: State, t: nat)
    requires Shape(s) && Resources(s) && t < |s.tasks|
    ensures Resources(s.(tasks := Link(s.tasks, t, s.tasks[t].preds)))
  {
    var linked := Link(s.tasks, t, s.tasks[t].preds);
    LinkKeepsTasks(s.tasks, t, s.tasks[t].preds);
    assert OnlyLinks(s.tasks, linked);
    LinkedSignals(s, linked);
    LinkedSegments(s, linked);
    LinkedMemory(s, linked);
  }

  lemma LinkedWaiting(s: State, t: nat)
    requires Shape(s) && Waiting(s, None) && t < |s.tasks| && s.tasks[t].status == Uninitialized
    ensures Waiting(s.(tasks := Link(s.tasks, t, s.tasks[t].preds)), Some(t))
  {
    var s1 := s.(tasks := Link(s.tasks, t, s.tasks[t].preds));
    LinkKeepsTasks(s.tasks, t, s.tasks[t].preds);
    assert WaitBag(s1) == WaitBag(s);
    forall i: nat
      ensures WaitBag(s1)[i] == if Waits(s1, i) && Some(t) != Some(i) then 1 else 0
    {
      assert i < |s.tasks| ==> SameButLinks(s.tasks[i], s1.tasks[i]);
    }
  }

  lemma LinkedBlocked(s: State, tasks: seq<Task>)
    requires Blocked(s) && OnlyLinks(s.tasks, tasks)
    ensures Blocked(s.(tasks := tasks))
  {
    forall j | 0 <= j < |s.readyQueue| && Stuck(s, s.readyQueue[j])
      ensures Stuck(s.(tasks := tasks), s.readyQueue[j])
    {
      LinkedStuck(s, tasks, s.readyQueue[j]);
    }
  }

  lemma LinkedStuck(s: State, tasks: seq<Task>, i: nat)
    requires Stuck(s, i) && OnlyLinks(s.tasks, tasks)
    ensures Stuck(s.(tasks := tasks), i)
  {
    assert SameButLinks(s.tasks[i], tasks[i]);
  }

  lemma LinkedTryable(s: State, t: nat)
    requires Inv(s) && t < |s.tasks| && s.tasks[t].status == Uninitialized
    ensures Tryable(s.(tasks := Link(s.tasks, t, s.tasks[t].preds)), t)
  {
    var s1 := s.(tasks := Link(s.tasks, t, s.tasks[t].preds));
    assert Shape(s1) by { LinkedShape(s, t); }
    assert PhasesBut(s1, Some(t)) by { LinkedPhases(s, t); }
    assert Links(s1) by { LinkedLinks(s, t); }
    assert Resources(s1) by { LinkedHoldings(s, t); }
    assert Waiting(s1, Some(t)) by { LinkedWaiting(s, t); }
    assert Blocked(s1) by {
      LinkKeepsTasks(s.tasks, t, s.tasks[t].preds);
      LinkedBlocked(s, s1.tasks);
    }
    assert TryShape(s1, t) by { LinkedTryShape(s, t); }
  }

  lemma LinkedTryShape(s: State, t: nat)
    requires Shape(s) && t < |s.tasks| && s.tasks[t].status == Uninitialized
    requires Shape(s.(tasks := Link(s.tasks, t, s.tasks[t].preds)))
    requires PhasesBut(s.(tasks := Link(s.tasks, t, s.tasks[t].preds)), Some(t))
    ensures TryShape(s.(tasks := Link(s.tasks, t, s.tasks[t].preds)), t)
  {
    var s1 := s.(tasks := Link(s.tasks, t, s.tasks[t].preds));
    LinkKeepsTasks(s.tasks, t, s.tasks[t].preds);
    assert ListsOf(s.tasks) by {
      forall i | 0 <= i < |s.tasks| ensures TaskShape(s, i) {}
    }
    assert SameButLinks(s.tasks[t], s1.tasks[t]);
    forall j | 0 <= j < |s1.tasks[t].preds|
      ensures CoveredBy(s1.tasks, t, s1.tasks[t].preds[j])
    {
      LinkCovers(s.tasks, t, s.tasks[t].preds, j);
    }
  }

  // ---------------------------------------------------------------- Park

  lemma ParkPhases(s: State, t: nat, queued: bool)
    requires TryShape(s, t)
    ensures Shape(Park(s, t, queued)) && Phases(Park(s, t, queued))
  {
    var s' := Park(s, t, queued);
    assert TaskPhase(s.tasks[t]);
    assert TaskShape(s, t);
    assert TaskShape(s', t);
    ShapeFrame(s, s', t);
    assert TaskPhase(s'.tasks[t]);
    assert HandlerPhase(s');
  }

  /** t is now counted among the launched tasks. */
  lemma TriedLinks(s: State, s': State, t: nat)
    requires Links(s) && OneTask(s, s', t)
    requires forall j :: 0 <= j < |s.tasks[t].preds| ==> CoveredBy(s.tasks, t, s.tasks[t].preds[j])
    requires var a, b := s.tasks[t], s'.tasks[t];
             b.preds == a.preds && b.succs == a.succs && b.notified == a.notified && b.numPreds == a.numPreds &&
             a.status.Rank() <= b.status.Rank() < Executed.Rank()
    ensures Links(s')
  {
    TotalSame(s.tasks, t, s'.tasks[t], Unnotified);
  }

  lemma ParkResources(s: State, t: nat, queued: bool)
    requires Resources(s) && t < |s.tasks|
    ensures Resources(Park(s, t, queued))
  {
    var s' := Park(s, t, queued);
    SignalsFrame(s, s', t);
    SegmentsFrame(s, s', t);
    MemoryFrame(s, s', t);
  }

  lemma ParkWaiting(s: State, t: nat, queued: bool)
    requires Waiting(s, Some(t)) && t < |s.tasks|
    requires s.tasks[t].status == Uninitialized || s.tasks[t].status == Initialized
    requires queued <==> s.tasks[t].numPreds == 0
    ensures Waiting(Park(s, t, queued), None)
  {
    var s' := Park(s, t, queued);
    assert WaitBag(s') == if queued then WaitBag(s) + multiset{t} else WaitBag(s);
    forall i: nat
      ensures WaitBag(s')[i] == if Waits(s', i) then 1 else 0
    {
      assert WaitBag(s)[i] == if Waits(s, i) && Some(t) != Some(i) then 1 else 0;
    }
  }

  lemma ParkBlocked(s: State, t: nat, queued: bool)
    requires Blocked(s) && t < |s.tasks| && KnownKernel(s, s.tasks[t].kernel)
    requires queued ==> !HasResources(s, s.tasks[t].kernel)
    ensures Blocked(Park(s, t, queued))
  {
    var s' := Park(s, t, queued);
    assert forall i: nat :: Stuck(s, i) ==> Stuck(s', i);
    assert queued ==> Stuck(s', t);
  }

  lemma ParkKeeps(s: State, t: nat, queued: bool)
    requires Tryable(s, t)
    requires queued <==> s.tasks[t].numPreds == 0
    requires queued ==> KnownKernel(s, s.tasks[t].kernel) && !HasResources(s, s.tasks[t].kernel)
    ensures Inv(Park(s, t, queued))
  {
    var s' := Park(s, t, queued);
    assert KnownKernel(s, s.tasks[t].kernel) by { assert TaskShape(s, t); }
    assert Basic(s') by { ParkPhases(s, t, queued); }
    assert Links(s') by { TriedLinks(s, s', t); }
    assert Resources(s') by { ParkResources(s, t, queued); }
    assert Waiting(s', None) by { ParkWaiting(s, t, queued); }
    assert Blocked(s') by { ParkBlocked(s, t, queued); }
  }

  // ---------------------------------------------------------------- Claim

  ghost predicate Claimable(s: State, t: nat) {
    Launchable(s, t) && HasResources(s, s.tasks[t].kernel)
  }

  lemma ClaimShape(s: State, t: nat)
    requires Shape(s) && Claimable(s, t)
    ensures Shape(Claim(s, t))
  {
    var s' := Claim(s, t);
    assert TaskShape(s, t);
    forall k | 0 <= k < |s'.kernels|
      ensures Pooled(s'.kernels[k]) && s'.kernels[k].segmentSize == s.kernels[k].segmentSize
    {
      assert Pooled(s.kernels[k]);
    }
    forall i | 0 <= i < |s'.tasks|
      ensures TaskShape(s', i)
    {
      assert TaskShape(s, i);
    }
  }

  lemma ClaimPhases(s: State, t: nat)
    requires TryShape(s, t) && Claimable(s, t) && s.tasks[t].numPreds == 0
    ensures Phases(Claim(s, t))
  {
    var s' := Claim(s, t);
    assert TaskPhase(s.tasks[t]);
    assert TaskPhase(s'.tasks[t]);
    assert HandlerPhase(s');
  }

  lemma ClaimSignalPool(s: State, t: nat)
    requires Claimable(s, t) && !s.tasks[t].holding
    ensures multiset(Claim(s, t).freeSignals) + Total(Claim(s, t).tasks, HeldSignal)
         == multiset(s.freeSignals) + Total(s.tasks, HeldSignal)
  {
    var s' := Claim(s, t);
    assert s.freeSignals == [s.freeSignals[0]] + s.freeSignals[1..];
    HandBack(s.freeSignals, s'.freeSignals, s.tasks, t, s'.tasks[t], HeldSignal);
  }

  lemma ClaimSignals(s: State, t: nat)
    requires Signals(s) && Claimable(s, t) && !s.tasks[t].holding
    ensures Signals(Claim(s, t))
  {
    var s' := Claim(s, t);
    assert SignalPool(s') by { ClaimSignalPool(s, t); }
    assert SignalValues(s') by { ClaimSignalValues(s, t); }
  }

  lemma ClaimSignalValues(s: State, t: nat)
    requires Signals(s) && Claimable(s, t) && !s.tasks[t].holding
    ensures SignalValues(Claim(s, t))
  {
    FreshSignal(s);
    var s' := Claim(s, t);
    forall j | 0 <= j < |s'.freeSignals|
      ensures s'.freeSignals[j] == s.freeSignals[1..][j] && s'.freeSignals[j] != s.freeSignals[0]
    {
    }
  }

  /** The signal at the head of the pool is nobody's and is there once. */
  lemma FreshSignal(s: State)
    requires Signals(s) && |s.freeSignals| > 0
    ensures s.freeSignals[0] !in s.freeSignals[1..]
    ensures forall i :: 0 <= i < |s.tasks| && s.tasks[i].holding ==> s.tasks[i].signal != s.freeSignals[0]
  {
    var g := s.freeSignals[0];
    var all := multiset(s.freeSignals) + Total(s.tasks, HeldSignal);
    assert all[g] == 1;
    assert s.freeSignals == [g] + s.freeSignals[1..];
    forall i | 0 <= i < |s.tasks| && s.tasks[i].holding
      ensures s.tasks[i].signal != g
    {
      TotalHas(s.tasks, i, HeldSignal);
      assert HeldSignal(s.tasks[i])[s.tasks[i].signal] == 1;
    }
  }

  lemma ClaimSegments(s: State, t: nat)
    requires Segments(s) && Claimable(s, t) && !s.tasks[t].holding
    ensures Segments(Claim(s, t))
  {
    var s' := Claim(s, t);
    forall k | 0 <= k < |s'.kernels|
      ensures SegmentsOf(s', k)
    {
      assert SegmentsOf(s, k);
      ClaimPool(s, t, k);
      HandBack(s.kernels[k].free, s'.kernels[k].free, s.tasks, t, s'.tasks[t], HeldSegment(k));
    }
  }

  lemma ClaimPool(s: State, t: nat, k: nat)
    requires Claimable(s, t) && !s.tasks[t].holding && k < |s.kernels|
    ensures multiset(Claim(s, t).kernels[k].free) + HeldSegment(k)(Claim(s, t).tasks[t])
         == multiset(s.kernels[k].free) + HeldSegment(k)(s.tasks[t])
  {
    if s.tasks[t].kernel == Some(k) {
      var free := s.kernels[k].free;
      assert free == [free[0]] + free[1..];
    }
  }

  lemma ClaimMemory(s: State, t: nat)
    requires Shape(s) && Segments(s) && Memory(s) && Claimable(s, t) && !s.tasks[t].holding
    ensures Memory(Claim(s, t))
  {
    hide Segments;
    var s' := Claim(s, t);
    forall i | 0 <= i < |s'.tasks| && s'.tasks[i].holding && s'.tasks[i].kernel.Some?
      ensures s'.tasks[i].kernel.value < |s'.kernels|
      ensures SegmentHolds(s'.kernels[s'.tasks[i].kernel.value], s'.tasks[i].segment, s'.tasks[i].image)
    {
      if i == t {
        ClaimCopies(s.kernels[s.tasks[t].kernel.value], s.tasks[t].image);
      } else {
        assert SegmentHolds(s.kernels[s.tasks[i].kernel.value], s.tasks[i].segment, s.tasks[i].image);
        HeldSegmentIsNotFree(s, i);
      }
    }
  }

  lemma ClaimCopies(k: KernelImpl, image: seq<byte>)
    requires Pooled(k) && |k.free| > 0 && |image| == k.segmentSize
    ensures SegmentHolds(TakeSegment(k, image), k.free[0], image)
  {
  }

  lemma ClaimWaiting(s: State, t: nat)
    requires Waiting(s, Some(t)) && Claimable(s, t)
    ensures Waiting(Claim(s, t), None)
  {
    var s' := Claim(s, t);
    assert WaitBag(s') == WaitBag(s);
    forall i: nat
      ensures WaitBag(s')[i] == if Waits(s', i) then 1 else 0
    {
      assert WaitBag(s)[i] == if Waits(s, i) && Some(t) != Some(i) then 1 else 0;
    }
  }

  /** Taking resources helps nobody. */
  lemma ClaimStuck(s: State, t: nat, i: nat)
    requires Claimable(s, t) && Stuck(s, i)
    ensures Stuck(Claim(s, t), i)
  {
  }

  lemma ClaimBlocked(s: State, t: nat)
    requires Blocked(s) && Claimable(s, t)
    ensures Blocked(Claim(s, t))
  {
    forall j | 0 <= j < |s.readyQueue| && Stuck(s, s.readyQueue[j])
      ensures Stuck(Claim(s, t), s.readyQueue[j])
    {
      ClaimStuck(s, t, s.readyQueue[j]);
    }
  }

  lemma ClaimKeeps(s: State, t: nat)
    requires Tryable(s, t) && Claimable(s, t) && s.tasks[t].numPreds == 0
    ensures Inv(Claim(s, t))
  {
    var s' := Claim(s, t);
    assert !s.tasks[t].holding by { assert TaskPhase(s.tasks[t]); }
    assert Shape(s') by { ClaimShape(s, t); }
    assert Phases(s') by { ClaimPhases(s, t); }
    assert Links(s') by { TriedLinks(s, s', t); }
    assert Signals(s') by { ClaimSignals(s, t); }
    assert Segments(s') by { ClaimSegments(s, t); }
    assert Memory(s') by { ClaimMemory(s, t); }
    assert Waiting(s', None) by { ClaimWaiting(s, t); }
    assert Blocked(s') by { ClaimBlocked(s, t); }
  }

  // ---------------------------------------------------------------- both callers

  /** The first try, case by case. */
  lemma LaunchCases(s: State, t: nat)
    requires Launchable(s, t) && s.tasks[t].status == Uninitialized
    ensures var s1 := s.(tasks := Link(s.tasks, t, s.tasks[t].preds));
            var complete := PredsExecuted(s.tasks, s.tasks[t].preds);
            && Launchable(s1, t)
            && s1.tasks[t].kernel == s.tasks[t].kernel
            && (complete <==> s1.tasks[t].numPreds == s.tasks[t].numPreds)
            && TryDispatch(s, t) ==
               if complete && HasResources(s1, s.tasks[t].kernel) then Claim(s1, t) else Park(s1, t, complete)
  {
    LinkKeepsTasks(s.tasks, t, s.tasks[t].preds);
    LinkNumPreds(s.tasks, t, s.tasks[t].preds);
    assert SameButLinks(s.tasks[t], Link(s.tasks, t, s.tasks[t].preds)[t]);
  }

  lemma LaunchKeeps(s: State, t: nat)
    requires Inv(s) && Launchable(s, t) && s.tasks[t].status == Uninitialized
    ensures Inv(TryDispatch(s, t))
  {
    var s1 := s.(tasks := Link(s.tasks, t, s.tasks[t].preds));
    LaunchCases(s, t);
    LinkedTryable(s, t);
    TriedKeeps(s1, t, PredsExecuted(s.tasks, s.tasks[t].preds));
  }

  lemma TriedKeeps(s: State, t: nat, complete: bool)
    requires Tryable(s, t) && Launchable(s, t) && (complete <==> s.tasks[t].numPreds == 0)
    ensures Inv(if complete && HasResources(s, s.tasks[t].kernel) then Claim(s, t) else Park(s, t, complete))
  {
    if complete && HasResources(s, s.tasks[t].kernel) {
      ClaimKeeps(s, t);
    } else {
      ParkKeeps(s, t, complete);
    }
  }

  lemma RetryTryable(s: State)
    requires Inv(s) && CanRetry(s)
    ensures Tryable(s.(handler := Draining(s.handler.todo, None)), s.handler.hand.value)
    ensures s.tasks[s.handler.hand.value].status == Initialized && s.tasks[s.handler.hand.value].numPreds == 0
  {
    var t := s.handler.hand.value;
    var h := Draining(s.handler.todo, None);
    var s0 := s.(handler := h);
    assert WaitBag(s) == WaitBag(s0) + multiset{t};
    assert WaitBag(s)[t] >= 1;
    assert Waits(s, t);
    HandlerOnly(s, h);
    assert Waiting(s0, Some(t)) by { RetryWaiting(s); }
    assert PhasesBut(s0, Some(t)) by { RetryPhases(s); }
    assert TryShape(s0, t) by { RetryTryShape(s); }
    assert Blocked(s0) by { RetryBlocked(s); }
  }

  lemma RetryWaiting(s: State)
    requires Waiting(s, None) && CanRetry(s)
    ensures Waiting(s.(handler := Draining(s.handler.todo, None)), s.handler.hand)
  {
    var t := s.handler.hand.value;
    var s0 := s.(handler := Draining(s.handler.todo, None));
    assert WaitBag(s) == WaitBag(s0) + multiset{t};
    forall i: nat
      ensures WaitBag(s0)[i] == if Waits(s0, i) && Some(t) != Some(i) then 1 else 0
    {
      assert WaitBag(s)[i] == if Waits(s, i) then 1 else 0;
      assert WaitBag(s)[t] == if Waits(s, t) then 1 else 0;
    }
  }

  lemma RetryPhases(s: State)
    requires Phases(s) && CanRetry(s)
    ensures PhasesBut(s.(handler := Draining(s.handler.todo, None)), s.handler.hand)
  {
  }

  lemma RetryTryShape(s: State)
    requires Shape(s) && Covered(s) && CanRetry(s) && s.tasks[s.handler.hand.value].status == Initialized
    requires Shape(s.(handler := Draining(s.handler.todo, None)))
    requires PhasesBut(s.(handler := Draining(s.handler.todo, None)), s.handler.hand)
    ensures TryShape(s.(handler := Draining(s.handler.todo, None)), s.handler.hand.value)
  {
  }

  lemma RetryBlocked(s: State)
    requires Blocked(s) && CanRetry(s)
    ensures Blocked(s.(handler := Draining(s.handler.todo, None)))
  {
    assert forall i: nat :: Stuck(s, i) ==> Stuck(s.(handler := Draining(s.handler.todo, None)), i);
  }

  lemma RetryCases(s: State)
    requires CanRetry(s) && s.tasks[s.handler.hand.value].status == Initialized
    ensures var t := s.handler.hand.value;
            var s0 := s.(handler := Draining(s.handler.todo, None));
            && Launchable(s0, t)
            && DoRetry(s) == if HasResources(s0, s0.tasks[t].kernel) then Claim(s0, t) else Park(s0, t, true)
  {
    var t := s.handler.hand.value;
    var s0 := s.(handler := Draining(s.handler.todo, None));
    assert s0.(tasks := s.tasks) == s0;
  }

  lemma RetryKeeps(s: State)
    requires Inv(s) && CanRetry(s)
    ensures Inv(DoRetry(s))
  {
    RetryTryable(s);
    RetryCases(s);
    TriedKeeps(s.(handler := Draining(s.handler.todo, None)), s.handler.hand.value, true);
  }
}
