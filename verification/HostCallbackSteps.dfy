/** Each event of the callback-mode scheduler keeps the invariant. */
module HostCallbackSteps {
  import opened Wrappers
  import opened Bags
  import opened TaskStates
  import opened HostCallback
  import opened HostCallbackInvariant

  // ---------------------------------------------------------------- frames

  /** Task i changes in what neither the links nor the pools depend on. */
  ghost predicate SameHoldings(a: Task, b: Task) {
    && b.holding == a.holding && b.signal == a.signal && b.kernel == a.kernel
    && b.segment == a.segment && b.image == a.image
  }

  ghost predicate SameLinks(a: Task, b: Task) {
    && b.preds == a.preds && b.succs == a.succs && b.notified == a.notified && b.numPreds == a.numPreds
    && (b.status == a.status || (a.status != Uninitialized && b.status.Rank() >= a.status.Rank()))
  }

  /** The same tasks, but for the links of task i. */
  ghost predicate OneTask(s: State, s': State, i: nat) {
    i < |s.tasks| == |s'.tasks| && s'.tasks == s.tasks[i := s'.tasks[i]]
  }

  lemma SameTotals(tasks: seq<Task>, i: nat, b: Task)
    requires i < |tasks| && SameHoldings(tasks[i], b)
    ensures Total(tasks[i := b], HeldSignal) == Total(tasks, HeldSignal)
    ensures forall k: nat :: Total(tasks[i := b], HeldSegment(k)) == Total(tasks, HeldSegment(k))
  {
    TotalSame(tasks, i, b, HeldSignal);
    forall k: nat
      ensures Total(tasks[i := b], HeldSegment(k)) == Total(tasks, HeldSegment(k))
    {
      TotalSame(tasks, i, b, HeldSegment(k));
    }
  }

  lemma LinksFrame(s: State, s': State, i: nat)
    requires Links(s) && OneTask(s, s', i) && SameLinks(s.tasks[i], s'.tasks[i])
    ensures Links(s')
  {
    TotalSame(s.tasks, i, s'.tasks[i], Unnotified);
  }

  lemma SegmentsFrame(s: State, s': State, i: nat)
    requires Segments(s) && OneTask(s, s', i) && SameHoldings(s.tasks[i], s'.tasks[i]) && s'.kernels == s.kernels
    ensures Segments(s')
  {
    SameTotals(s.tasks, i, s'.tasks[i]);
    forall k | 0 <= k < |s'.kernels|
      ensures SegmentsOf(s', k)
    {
      assert SegmentsOf(s, k);
    }
  }

  lemma MemoryFrame(s: State, s': State, i: nat)
    requires Memory(s) && OneTask(s, s', i) && SameHoldings(s.tasks[i], s'.tasks[i]) && s'.kernels == s.kernels
    ensures Memory(s')
  {
  }

  lemma SignalsFrame(s: State, s': State, i: nat)
    requires Signals(s) && OneTask(s, s', i)
    requires SameHoldings(s.tasks[i], s'.tasks[i]) && s'.tasks[i].left == s.tasks[i].left
    requires s'.maxSignals == s.maxSignals && s'.freeSignals == s.freeSignals && s'.signalValue == s.signalValue
    ensures Signals(s')
  {
    SameTotals(s.tasks, i, s'.tasks[i]);
  }

  lemma ShapeFrame(s: State, s': State, i: nat)
    requires Shape(s) && OneTask(s, s', i) && s'.kernels == s.kernels
    requires s'.maxSignals == s.maxSignals && |s'.signalValue| == |s.signalValue|
    requires TaskShape(s', i)
    ensures Shape(s')
  {
  }

  /** Only the callback thread moves. */
  lemma HandlerOnly(s: State, h: Handler)
    requires Inv(s)
    ensures Shape(s.(handler := h)) && Links(s.(handler := h)) && Resources(s.(handler := h))
  {
    var s' := s.(handler := h);
    assert Shape(s') by { ShapeSame(s, h); }
    assert Links(s') by { LinksSame(s, h); }
    assert Resources(s') by { ResourcesSame(s, h); }
  }

  lemma ShapeSame(s: State, h: Handler)
    requires Shape(s)
    ensures Shape(s.(handler := h))
  {
  }

  lemma LinksSame(s: State, h: Handler)
    requires Links(s)
    ensures Links(s.(handler := h))
  {
  }

  lemma ResourcesSame(s: State, h: Handler)
    requires Resources(s)
    ensures Resources(s.(handler := h))
  {
    forall k | 0 <= k < |s.kernels|
      ensures SegmentsOf(s.(handler := h), k)
    {
      assert SegmentsOf(s, k);
    }
  }

  lemma WaitingFrame(s: State, s': State, i: nat)
    requires Waiting(s, None) && OneTask(s, s', i) && Waits(s', i) == Waits(s, i)
    requires WaitBag(s') == WaitBag(s)
    ensures Waiting(s', None)
  {
  }

  lemma StuckFrame(s: State, s': State, i: nat)
    requires OneTask(s, s', i) && s'.kernels == s.kernels && s'.freeSignals == s.freeSignals
    requires s'.readyQueue == s.readyQueue && s'.tasks[i].kernel == s.tasks[i].kernel
    requires forall j :: 0 <= j < |s.readyQueue| ==> Stuck(s, s.readyQueue[j])
    ensures forall j :: 0 <= j < |s'.readyQueue| ==> Stuck(s', s'.readyQueue[j])
  {
  }

  lemma BlockedFrame(s: State, s': State, i: nat)
    requires Blocked(s) && OneTask(s, s', i) && s'.kernels == s.kernels && s'.freeSignals == s.freeSignals
    requires s'.readyQueue == s.readyQueue && s'.handler == s.handler && s'.tasks[i].kernel == s.tasks[i].kernel
    ensures Blocked(s')
  {
  }

  // ---------------------------------------------------------------- Create

  lemma CreateBasic(s: State, preds: seq<nat>, kernel: Option<nat>, work: nat, image: seq<byte>)
    requires Basic(s) && CanCreate(s, preds, kernel, work, image)
    ensures Basic(DoCreate(s, preds, kernel, work, image))
  {
  }

  lemma CreateLinks(s: State, preds: seq<nat>, kernel: Option<nat>, work: nat, image: seq<byte>)
    requires Shape(s) && Links(s) && CanCreate(s, preds, kernel, work, image)
    ensures Links(DoCreate(s, preds, kernel, work, image))
  {
    TotalAppend(s.tasks, NewTask(preds, kernel, work, image), Unnotified);
  }

  lemma CreateResources(s: State, preds: seq<nat>, kernel: Option<nat>, work: nat, image: seq<byte>)
    requires Resources(s) && CanCreate(s, preds, kernel, work, image)
    ensures Resources(DoCreate(s, preds, kernel, work, image))
  {
    var t := NewTask(preds, kernel, work, image);
    var s' := DoCreate(s, preds, kernel, work, image);
    TotalAppendNothing(s.tasks, t, HeldSignal);
    forall k | 0 <= k < |s'.kernels|
      ensures SegmentsOf(s', k)
    {
      TotalAppendNothing(s.tasks, t, HeldSegment(k));
      assert SegmentsOf(s, k);
    }
  }

  lemma CreateQueues(s: State, preds: seq<nat>, kernel: Option<nat>, work: nat, image: seq<byte>)
    requires Queues(s) && CanCreate(s, preds, kernel, work, image)
    ensures Queues(DoCreate(s, preds, kernel, work, image))
  {
    assert WaitBag(DoCreate(s, preds, kernel, work, image)) == WaitBag(s);
  }

  // ---------------------------------------------------------------- Publish

  lemma PublishBasic(s: State, t: nat, tail: seq<byte>)
    requires Basic(s) && CanPublish(s, t, tail)
    ensures Basic(DoPublish(s, t, tail))
  {
    var s' := DoPublish(s, t, tail);
    assert Shape(s') by { PublishShape(s, t, tail); }
    assert Phases(s') by { PublishPhases(s, t, tail); }
  }

  lemma PublishShape(s: State, t: nat, tail: seq<byte>)
    requires Shape(s) && CanPublish(s, t, tail)
    ensures Shape(DoPublish(s, t, tail))
  {
  }

  lemma PublishPhases(s: State, t: nat, tail: seq<byte>)
    requires Phases(s) && CanPublish(s, t, tail)
    ensures Phases(DoPublish(s, t, tail))
  {
  }

  lemma PublishLinks(s: State, t: nat, tail: seq<byte>)
    requires Links(s) && CanPublish(s, t, tail)
    ensures Links(DoPublish(s, t, tail))
  {
    LinksFrame(s, DoPublish(s, t, tail), t);
  }

  lemma PublishSignals(s: State, t: nat, tail: seq<byte>)
    requires Signals(s) && CanPublish(s, t, tail)
    ensures Signals(DoPublish(s, t, tail))
  {
    SignalsFrame(s, DoPublish(s, t, tail), t);
  }

  lemma PublishSegments(s: State, t: nat, tail: seq<byte>)
    requires Segments(s) && CanPublish(s, t, tail)
    ensures Segments(DoPublish(s, t, tail))
  {
    var s' := DoPublish(s, t, tail);
    SameTotals(s.tasks, t, s'.tasks[t]);
    forall k | 0 <= k < |s'.kernels|
      ensures SegmentsOf(s', k)
    {
      assert SegmentsOf(s, k);
    }
  }

  lemma PublishMemory(s: State, t: nat, tail: seq<byte>)
    requires Shape(s) && Segments(s) && Memory(s) && CanPublish(s, t, tail) && s.tasks[t].holding
    ensures Memory(DoPublish(s, t, tail))
  {
    var s' := DoPublish(s, t, tail);
    forall i | 0 <= i < |s'.tasks| && s'.tasks[i].holding && s'.tasks[i].kernel.Some?
      ensures s'.tasks[i].kernel.value < |s'.kernels|
      ensures SegmentHolds(s'.kernels[s'.tasks[i].kernel.value], s'.tasks[i].segment, s'.tasks[i].image)
    {
      if i != t && s.tasks[i].kernel == s.tasks[t].kernel {
        SegmentHoldersDiffer(s, i, t);
      }
    }
  }

  lemma PublishQueues(s: State, t: nat, tail: seq<byte>)
    requires Queues(s) && CanPublish(s, t, tail)
    ensures Queues(DoPublish(s, t, tail))
  {
    var s' := DoPublish(s, t, tail);
    assert WaitBag(s') == WaitBag(s);
    WaitingFrame(s, s', t);
    assert Blocked(s') by { PublishBlocked(s, t, tail); }
  }

  lemma PublishBlocked(s: State, t: nat, tail: seq<byte>)
    requires Blocked(s) && CanPublish(s, t, tail)
    ensures Blocked(DoPublish(s, t, tail))
  {
    var s' := DoPublish(s, t, tail);
    forall i | Stuck(s, i)
      ensures Stuck(s', i)
    {
    }
  }

  // ---------------------------------------------------------------- Register

  lemma RegisterPhases(s: State, t: nat)
    requires Phases(s) && CanRegister(s, t)
    ensures Phases(DoRegister(s, t))
  {
  }

  lemma RegisterKeeps(s: State, t: nat)
    requires Inv(s) && CanRegister(s, t)
    ensures Inv(DoRegister(s, t))
  {
    hide Phases, Counts, Covered, Signals, Segments, Memory, Waiting, Blocked, Shape;
    var s' := DoRegister(s, t);
    RegisterShape(s, t);
    RegisterPhases(s, t);
    LinksFrame(s, s', t);
    SignalsFrame(s, s', t);
    SegmentsFrame(s, s', t);
    MemoryFrame(s, s', t);
    RegisterQueues(s, t);
  }

  lemma RegisterShape(s: State, t: nat)
    requires Shape(s) && CanRegister(s, t)
    ensures Shape(DoRegister(s, t))
  {
    assert TaskShape(s, t);
    assert TaskShape(DoRegister(s, t), t);
    ShapeFrame(s, DoRegister(s, t), t);
  }

  lemma RegisterQueues(s: State, t: nat)
    requires Queues(s) && CanRegister(s, t)
    ensures Queues(DoRegister(s, t))
  {
    var s' := DoRegister(s, t);
    assert WaitBag(s') == WaitBag(s);
    WaitingFrame(s, s', t);
    BlockedFrame(s, s', t);
  }

  // ---------------------------------------------------------------- Retire

  lemma RetirePhases(s: State, t: nat)
    requires Phases(s) && CanRetire(s, t)
    ensures Phases(DoRetire(s, t))
  {
  }

  lemma RetireSignals(s: State, t: nat)
    requires Shape(s) && Signals(s) && CanRetire(s, t) && s.tasks[t].holding
    ensures Signals(DoRetire(s, t))
  {
    var s' := DoRetire(s, t);
    SameTotals(s.tasks, t, s'.tasks[t]);
    HeldIsNotFree(s, t);
    forall i | 0 <= i < |s.tasks| && s.tasks[i].holding && i != t
      ensures s.tasks[i].signal != s.tasks[t].signal
    {
      HoldersDiffer(s, i, t);
    }
  }

  lemma RetireKeeps(s: State, t: nat)
    requires Inv(s) && CanRetire(s, t)
    ensures Inv(DoRetire(s, t))
  {
    hide Shape, Phases, Counts, Covered, Signals, Segments, Memory, Waiting, Blocked;
    var s' := DoRetire(s, t);
    RetireShape(s, t);
    RetirePhases(s, t);
    LinksFrame(s, s', t);
    RetireSignals(s, t);
    SegmentsFrame(s, s', t);
    MemoryFrame(s, s', t);
    RetireQueues(s, t);
  }

  lemma RetireShape(s: State, t: nat)
    requires Basic(s) && CanRetire(s, t)
    ensures Shape(DoRetire(s, t)) && s.tasks[t].holding
  {
    assert TaskShape(DoRetire(s, t), t);
    ShapeFrame(s, DoRetire(s, t), t);
  }

  lemma RetireQueues(s: State, t: nat)
    requires Queues(s) && Phases(s) && CanRetire(s, t)
    ensures Queues(DoRetire(s, t))
  {
    var s' := DoRetire(s, t);
    assert WaitBag(s') == WaitBag(s);
    WaitingFrame(s, s', t);
    BlockedFrame(s, s', t);
  }

  // ---------------------------------------------------------------- Fire

  lemma FirePhases(s: State, t: nat)
    requires Phases(s) && Signals(s) && CanFire(s, t)
    ensures Phases(DoFire(s, t))
  {
  }

  lemma FireShape(s: State, t: nat)
    requires Shape(s) && CanFire(s, t)
    ensures Shape(DoFire(s, t))
  {
    assert TaskShape(DoFire(s, t), t);
    ShapeFrame(s, DoFire(s, t), t);
  }

  lemma FireQueues(s: State, t: nat)
    requires Phases(s) && Queues(s) && CanFire(s, t)
    ensures Queues(DoFire(s, t))
  {
    var s' := DoFire(s, t);
    assert WaitBag(s') == WaitBag(s);
    WaitingFrame(s, s', t);
    StuckFrame(s, s', t);
  }

  lemma FireKeeps(s: State, t: nat)
    requires Inv(s) && CanFire(s, t)
    ensures Inv(DoFire(s, t))
  {
    assert TaskPhase(s.tasks[t]);
    hide Phases, Counts, Covered, Signals, Segments, Memory, Waiting, Blocked, Shape;
    var s' := DoFire(s, t);
    FireShape(s, t);
    FirePhases(s, t);
    LinksFrame(s, s', t);
    SignalsFrame(s, s', t);
    SegmentsFrame(s, s', t);
    MemoryFrame(s, s', t);
    FireQueues(s, t);
  }

  // ---------------------------------------------------------------- Complete

  lemma CompletePhases(s: State)
    requires Phases(s) && CanComplete(s)
    ensures Phases(DoComplete(s))
  {
  }

  lemma CompleteQueues(s: State)
    requires Phases(s) && Queues(s) && CanComplete(s)
    ensures Queues(DoComplete(s))
  {
    var s' := DoComplete(s);
    assert WaitBag(s') == WaitBag(s);
    WaitingFrame(s, s', s.handler.task);
  }

  lemma CompleteKeeps(s: State)
    requires Inv(s) && CanComplete(s)
    ensures Inv(DoComplete(s))
  {
    var s', t := DoComplete(s), s.handler.task;
    CompleteIsLate(s);
    hide Phases, Counts, Covered, Signals, Segments, Memory, Waiting, Blocked, Shape;
    CompleteShape(s);
    CompletePhases(s);
    LinksFrame(s, s', t);
    SignalsFrame(s, s', t);
    SegmentsFrame(s, s', t);
    MemoryFrame(s, s', t);
    CompleteQueues(s);
  }

  lemma CompleteIsLate(s: State)
    requires Phases(s) && CanComplete(s)
    ensures s.tasks[s.handler.task].status == Executed
  {
  }

  lemma CompleteShape(s: State)
    requires Shape(s) && CanComplete(s)
    ensures Shape(DoComplete(s))
  {
    var s', t := DoComplete(s), s.handler.task;
    assert TaskShape(s, t);
    assert TaskShape(s', t);
    ShapeFrame(s, s', t);
  }

  // ---------------------------------------------------------------- Snapshot, Pop and Quit

  lemma WaitingSame(s: State, s': State)
    requires Waiting(s, None) && WaitBag(s') == WaitBag(s) && s'.tasks == s.tasks
    ensures Waiting(s', None)
  {
  }

  lemma SnapshotKeeps(s: State)
    requires Inv(s) && s.handler.Snapshotting?
    ensures Inv(s.(handler := Draining(|s.readyQueue|, None)))
  {
    var s' := s.(handler := Draining(|s.readyQueue|, None));
    HandlerOnly(s, s'.handler);
    assert Phases(s') by { assert forall i :: 0 <= i < |s.tasks| ==> TaskPhase(s.tasks[i]); }
    assert WaitBag(s') == WaitBag(s);
    WaitingSame(s, s');
  }

  lemma PopBlocked(s: State)
    requires Blocked(s) && CanPop(s)
    ensures Blocked(DoPop(s)) && |s.readyQueue| > 0
  {
  }

  lemma PopPhases(s: State)
    requires Phases(s) && CanPop(s)
    ensures Phases(DoPop(s))
  {
  }

  lemma PopKeeps(s: State)
    requires Inv(s) && CanPop(s)
    ensures Inv(DoPop(s))
  {
    PopBlocked(s);
    PopPhases(s);
    PopWaiting(s);
    HandlerOnly(s, DoPop(s).handler);
    QueueOnly(s.(handler := DoPop(s).handler), DoPop(s).readyQueue);
  }

  lemma PopWaiting(s: State)
    requires Waiting(s, None) && CanPop(s) && |s.readyQueue| > 0
    ensures Waiting(DoPop(s), None)
  {
    assert s.readyQueue == [s.readyQueue[0]] + s.readyQueue[1..];
    assert WaitBag(DoPop(s)) == WaitBag(s);
    WaitingSame(s, DoPop(s));
  }

  /** Nothing but the queue predicates depends on the ready queue. */
  lemma QueueOnly(s: State, q: seq<nat>)
    requires Shape(s) && Links(s) && Resources(s)
    ensures Shape(s.(readyQueue := q)) && Links(s.(readyQueue := q)) && Resources(s.(readyQueue := q))
  {
    var s' := s.(readyQueue := q);
    assert Shape(s') by { QueueShape(s, q); }
    assert Links(s') by { QueueLinks(s, q); }
    assert Resources(s') by { QueueResources(s, q); }
  }

  lemma QueueShape(s: State, q: seq<nat>)
    requires Shape(s)
    ensures Shape(s.(readyQueue := q))
  {
  }

  lemma QueueLinks(s: State, q: seq<nat>)
    requires Links(s)
    ensures Links(s.(readyQueue := q))
  {
  }

  lemma QueueResources(s: State, q: seq<nat>)
    requires Resources(s)
    ensures Resources(s.(readyQueue := q))
  {
    forall k | 0 <= k < |s.kernels|
      ensures SegmentsOf(s.(readyQueue := q), k)
    {
      assert SegmentsOf(s, k);
    }
  }

  lemma QuitKeeps(s: State)
    requires Inv(s) && s.handler == Draining(0, None)
    ensures Inv(s.(handler := Idle))
  {
    var s' := s.(handler := Idle);
    HandlerOnly(s, Idle);
    assert Phases(s') by { assert forall i :: 0 <= i < |s.tasks| ==> TaskPhase(s.tasks[i]); }
    assert WaitBag(s') == WaitBag(s);
    WaitingSame(s, s');
    assert Blocked(s') by { QuitBlocked(s); }
  }

  lemma QuitBlocked(s: State)
    requires Blocked(s) && s.handler == Draining(0, None)
    ensures Blocked(s.(handler := Idle))
  {
    forall j | 0 <= j < |s.readyQueue|
      ensures Stuck(s.(handler := Idle), s.readyQueue[j])
    {
      assert Stuck(s, s.readyQueue[j]);
    }
  }

  // ---------------------------------------------------------------- NotifyOne

  lemma NotifyTarget(s: State) returns (v: nat)
    requires Shape(s) && Counts(s) && CanNotify(s)
    ensures v == s.tasks[s.handler.task].succs[s.tasks[s.handler.task].notified]
    ensures s.handler.task < v < |s.tasks| && s.tasks[v].numPreds >= 1
  {
    var h := s.handler.task;
    var x := s.tasks[h];
    v := x.succs[x.notified];
    assert x.succs[x.notified..][0] == v;
    assert v in Unnotified(x);
    TotalHas(s.tasks, h, Unnotified);
  }

  lemma NotifyShape(s: State)
    requires Shape(s) && CanNotify(s)
    ensures Shape(DoNotify(s))
  {
    var h := s.handler.task;
    var tasks1 := s.tasks[h := s.tasks[h].(notified := s.tasks[h].notified + 1)];
    var s1 := s.(tasks := tasks1);
    assert TaskShape(s1, h);
    ShapeFrame(s, s1, h);
    var v := s.tasks[h].succs[s.tasks[h].notified];
    var s' := DoNotify(s);
    assert TaskShape(s1, v);
    assert TaskShape(s', v);
    ShapeFrame(s1, s', v);
  }

  lemma NotifyPhases(s: State)
    requires Basic(s) && Counts(s) && CanNotify(s)
    ensures Phases(DoNotify(s))
  {
    var v := NotifyTarget(s);
    assert TaskPhase(s.tasks[v]);
    assert TaskPhase(s.tasks[s.handler.task]);
    var s' := DoNotify(s);
    assert TaskPhase(s'.tasks[v]);
    assert HandlerPhase(s');
  }

  lemma NotifyCounts(s: State)
    requires Shape(s) && Counts(s) && CanNotify(s)
    ensures Counts(DoNotify(s))
  {
    hide Shape, Counts, Unnotified, Total;
    var h, s' := s.handler.task, DoNotify(s);
    var v := NotifyTarget(s);
    NotifyTotals(s.tasks, h, v, s'.tasks[v]);
    OneLess(s, s', v);
  }

  lemma OneLess(s: State, s': State, v: nat)
    requires Counts(s) && v < |s.tasks| == |s'.tasks| && s'.tasks[v].numPreds == s.tasks[v].numPreds - 1
    requires forall i :: 0 <= i < |s.tasks| && i != v ==> s'.tasks[i].numPreds == s.tasks[i].numPreds
    requires forall i: nat :: Total(s.tasks, Unnotified)[i] == Total(s'.tasks, Unnotified)[i] + if i == v then 1 else 0
    ensures Counts(s')
  {
    hide Unnotified, Total;
  }

  lemma NotifyTotals(tasks: seq<Task>, h: nat, v: nat, b: Task)
    requires h < |tasks| && v < |tasks| && v != h
    requires tasks[h].notified < |tasks[h].succs| && tasks[h].succs[tasks[h].notified] == v
    requires b.succs == tasks[v].succs && b.notified == tasks[v].notified
    ensures var after := tasks[h := tasks[h].(notified := tasks[h].notified + 1)][v := b];
            forall i: nat :: Total(tasks, Unnotified)[i] == Total(after, Unnotified)[i] + if i == v then 1 else 0
  {
    var x := tasks[h];
    var x' := x.(notified := x.notified + 1);
    NotifyTakesOne(x);
    TotalUpdate(tasks, h, x', Unnotified);
    TotalSame(tasks[h := x'], v, b, Unnotified);
    DropOne(Total(tasks[h := x'][v := b], Unnotified), Total(tasks, Unnotified), Unnotified(x'), v);
  }

  lemma NotifyTakesOne(x: Task)
    requires x.notified < |x.succs|
    ensures Unnotified(x) == multiset{x.succs[x.notified]} + Unnotified(x.(notified := x.notified + 1))
  {
    assert x.succs[x.notified..] == [x.succs[x.notified]] + x.succs[x.notified + 1..];
  }

  lemma DropOne(a: multiset<nat>, b: multiset<nat>, c: multiset<nat>, v: nat)
    requires a + (multiset{v} + c) == b + c
    ensures forall i: nat :: b[i] == a[i] + if i == v then 1 else 0
  {
    forall i: nat
      ensures b[i] == a[i] + if i == v then 1 else 0
    {
      assert (a + (multiset{v} + c))[i] == (b + c)[i];
    }
  }

  lemma NotifyCovered(s: State)
    requires Shape(s) && Covered(s) && HandlerPhase(s) && CanNotify(s)
    ensures Covered(DoNotify(s))
  {
  }

  lemma NotifyResources(s: State)
    requires Shape(s) && Resources(s) && CanNotify(s)
    ensures Resources(DoNotify(s))
  {
    var h := s.handler.task;
    var s1 := s.(tasks := s.tasks[h := s.tasks[h].(notified := s.tasks[h].notified + 1)]);
    var v := s.tasks[h].succs[s.tasks[h].notified];
    var s' := DoNotify(s);
    assert v > h by { assert TaskShape(s, h); }
    SignalsFrame(s, s1, h);
    SegmentsFrame(s, s1, h);
    MemoryFrame(s, s1, h);
    SignalsFrame(s1, s', v);
    SegmentsFrame(s1, s', v);
    MemoryFrame(s1, s', v);
  }

  lemma NotifyWaiting(s: State)
    requires Shape(s) && Counts(s) && Waiting(s, None) && Phases(s) && CanNotify(s)
    ensures Waiting(DoNotify(s), None)
  {
    var v := NotifyTarget(s);
    var s' := DoNotify(s);
    var count := s.tasks[v].numPreds - 1;
    assert count == s'.tasks[v].numPreds;
    assert WaitBag(s') == if count == 0 then WaitBag(s) + multiset{v} else WaitBag(s);
    assert s.tasks[v].status == Initialized by { NotifiedIsInitialized(s, v); }
    forall i: nat
      ensures WaitBag(s')[i] == if Waits(s', i) then 1 else 0
    {
      assert WaitBag(s)[i] == if Waits(s, i) then 1 else 0;
    }
  }

  /** A task somebody still has to notify has been tried and waits. */
  lemma NotifiedIsInitialized(s: State, v: nat)
    requires Phases(s) && v < |s.tasks| && s.tasks[v].numPreds >= 1
    ensures s.tasks[v].status == Initialized
  {
    assert TaskPhase(s.tasks[v]);
  }

  lemma NotifyBlocked(s: State)
    requires Shape(s) && Blocked(s) && CanNotify(s)
    ensures Blocked(DoNotify(s))
  {
    var h := s.handler.task;
    var s1 := s.(tasks := s.tasks[h := s.tasks[h].(notified := s.tasks[h].notified + 1)]);
    var v := s.tasks[h].succs[s.tasks[h].notified];
    StuckFrame(s, s1, h);
    StuckFrame(s1, DoNotify(s), v);
  }

  // ---------------------------------------------------------------- Release

  lemma ReleaseBasic(s: State)
    requires Basic(s) && Segments(s) && CanRelease(s)
    ensures Basic(DoRelease(s))
  {
    var h := s.handler.task;
    if s.tasks[h].kernel.Some? {
      HeldSegmentIsNotFree(s, h);
    }
    var s' := DoRelease(s);
    assert TaskShape(s, h);
    assert Shape(s') by { ReleaseShape(s); }
    assert Phases(s') by { ReleasePhases(s); }
  }

  lemma ReleaseShape(s: State)
    requires Shape(s) && CanRelease(s)
    requires s.tasks[s.handler.task].kernel.Some? ==> s.tasks[s.handler.task].segment < MAX_NUM_KERNELS
    ensures Shape(DoRelease(s))
  {
  }

  lemma ReleasePhases(s: State)
    requires Phases(s) && CanRelease(s)
    ensures Phases(DoRelease(s))
  {
  }

  lemma ReleaseLinks(s: State)
    requires Links(s) && CanRelease(s)
    ensures Links(DoRelease(s))
  {
    LinksFrame(s, DoRelease(s), s.handler.task);
  }

  lemma ReleaseSignals(s: State)
    requires Phases(s) && Signals(s) && CanRelease(s)
    ensures Signals(DoRelease(s))
  {
    assert SignalPool(DoRelease(s)) by { ReleaseSignalPool(s); }
    assert SignalValues(DoRelease(s)) by { ReleaseSignalValues(s); }
  }

  lemma ReleaseSignalValues(s: State)
    requires Phases(s) && SignalValues(s) && CanRelease(s)
    ensures SignalValues(DoRelease(s))
  {
    assert TaskPhase(s.tasks[s.handler.task]);
  }

  lemma ReleaseSignalPool(s: State)
    requires HandlerPhase(s) && CanRelease(s)
    ensures multiset(DoRelease(s).freeSignals) + Total(DoRelease(s).tasks, HeldSignal)
         == multiset(s.freeSignals) + Total(s.tasks, HeldSignal)
  {
    var x := s.tasks[s.handler.task];
    HandBack(s.freeSignals, DoRelease(s).freeSignals, s.tasks, s.handler.task, x.(holding := false), HeldSignal);
  }

  lemma ReleaseSegments(s: State)
    requires Phases(s) && Segments(s) && CanRelease(s)
    ensures Segments(DoRelease(s))
  {
    var h := s.handler.task;
    var x := s.tasks[h];
    var x' := x.(holding := false);
    var s' := DoRelease(s);
    forall k | 0 <= k < |s'.kernels|
      ensures SegmentsOf(s', k)
    {
      assert SegmentsOf(s, k);
      assert HeldSegment(k)(x') == multiset{};
      assert multiset(s'.kernels[k].free) == multiset(s.kernels[k].free) + HeldSegment(k)(x);
      HandBack(s.kernels[k].free, s'.kernels[k].free, s.tasks, h, x', HeldSegment(k));
    }
  }

  lemma ReleaseMemory(s: State)
    requires Memory(s) && CanRelease(s)
    ensures Memory(DoRelease(s))
  {
  }

  lemma ReleaseQueues(s: State)
    requires Phases(s) && Queues(s) && CanRelease(s)
    ensures Queues(DoRelease(s))
  {
    var s' := DoRelease(s);
    assert WaitBag(s') == WaitBag(s);
    WaitingFrame(s, s', s.handler.task);
  }
}
