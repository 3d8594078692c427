/**
  What a launch asked for is what happens: over every run of the callback-mode scheduler the tasks have the
  predecessors, the packets and the arguments of the events that made them.
 */
module HostCallbackLaunch {
  import opened Wrappers
  import opened TaskStates
  import opened HostCallback
  import opened HostCallbackInvariant
  import opened HostCallbackSafety
  import HostCallbackProgress

  // ---------------------------------------------------------------- the event that made a task

  lemma {:induction false} ExecSplit(s: State, es: seq<Event>, k: nat)
    requires Possible(s, es) && k <= |es|
    ensures Possible(s, es[..k]) && Possible(Exec(s, es[..k]), es[k..])
    ensures Exec(Exec(s, es[..k]), es[k..]) == Exec(s, es)
    decreases k
  {
    if k == 0 {
      assert es[..0] == [] && es[0..] == es;
    } else {
      assert es[..k][1..] == es[1..][..k - 1] && es[1..][k - 1..] == es[k..];
      ExecSplit(Step(s, es[0]), es[1..], k - 1);
    }
  }

  /** Event k of the run makes task t. */
  ghost predicate Makes(s: State, es: seq<Event>, k: nat, t: nat) {
    k < |es| && es[k].Create? && Possible(s, es[..k]) && |Exec(s, es[..k]).tasks| == t
  }

  /**
    At any time a task can be launched that requires any tasks made before, with any work to do and, for a kernel, an
    image of its segments' size.
   */
  lemma LaunchesAnytime(
    s: State, es: seq<Event>, preds: seq<nat>, kernel: Option<nat>, work: nat, image: seq<byte>)
    requires Initial(s) && Possible(s, es) && work > 0
    requires forall j :: 0 <= j < |preds| ==> preds[j] < |Exec(s, es).tasks|
    requires kernel.Some? ==>
               kernel.value < |Exec(s, es).kernels| && |image| == Exec(s, es).kernels[kernel.value].segmentSize
    ensures Enabled(Exec(s, es), Create(preds, kernel, work, image))
    ensures Enabled(Step(Exec(s, es), Create(preds, kernel, work, image)), Event.Launch(|Exec(s, es).tasks|))
  {
    InitialHolds(s);
    RunKeeps(s, es);
    hide Initial, Possible, Exec, Inv;
    CreatesThenLaunches(Exec(s, es), preds, kernel, work, image);
  }

  lemma NewIsLaunchable(s: State, t: nat)
    requires Inv(s) && t < |s.tasks|
    ensures Launchable(s, t)
  {
    HostCallbackProgress.AlwaysLaunchable(s, t);
  }

  lemma CreatesThenLaunches(s: State, preds: seq<nat>, kernel: Option<nat>, work: nat, image: seq<byte>)
    requires Inv(s) && CanCreate(s, preds, kernel, work, image)
    ensures Enabled(s, Create(preds, kernel, work, image))
    ensures Enabled(Step(s, Create(preds, kernel, work, image)), Event.Launch(|s.tasks|))
  {
    hide Inv, Launchable, TryDispatch;
    CreateKeeps(s, preds, kernel, work, image);
    NewIsLaunchable(DoCreate(s, preds, kernel, work, image), |s.tasks|);
  }

  /** Whatever happens later, a task is the one that was launched. */
  lemma TaskIsAsLaunched(s: State, es: seq<Event>, k: nat, t: nat)
    requires Initial(s) && Possible(s, es) && Makes(s, es, k, t)
    ensures t < |Exec(s, es).tasks|
    ensures var task := Exec(s, es).tasks[t];
            && task.preds == es[k].preds && task.kernel == es[k].kernel
            && task.work == es[k].work && task.image == es[k].image
  {
    InitialHolds(s);
    PrefixPossible(s, es, k);
    ExecSplit(s, es, k + 1);
    RunKeeps(s, es[..k + 1]);
    hide Inv, Initial, Possible, Exec;
    RunAdvances(Exec(s, es[..k + 1]), es[k + 1..]);
    assert Advances(Exec(s, es[..k + 1]).tasks[t], Exec(s, es).tasks[t]);
  }

  /** A task is READY only after every task required at its launch has executed, with no packet of it left. */
  lemma ReadyAfterPredecessors(s: State, es: seq<Event>, k: nat, t: nat, p: nat)
    requires Initial(s) && Possible(s, es) && Makes(s, es, k, t) && p in es[k].preds
    requires t < |Exec(s, es).tasks| && Exec(s, es).tasks[t].status.Rank() >= Ready.Rank()
    ensures p < t && Exec(s, es).tasks[p].status.Rank() >= Executed.Rank() && Exec(s, es).tasks[p].left == 0
  {
    TaskIsAsLaunched(s, es, k, t);
    var j :| 0 <= j < |es[k].preds| && es[k].preds[j] == p;
    hide Initial, Possible, Exec, Makes;
    RequiredExecuted(s, es, t, j);
  }

  // ---------------------------------------------------------------- the packets

  /** How often a device has retired a packet of task t. */
  ghost function RetireCount(es: seq<Event>, t: nat): nat {
    if |es| == 0 then 0
    else RetireCount(es[..|es| - 1], t) + if es[|es| - 1] == Retire(t) then 1 else 0
  }

  /** The packets of task t that are no longer to come, once it has a signal. */
  ghost function Gone(s: State, t: nat): int {
    if t < |s.tasks| && s.tasks[t].status.Rank() >= Ready.Rank() then s.tasks[t].work - s.tasks[t].left else 0
  }

  lemma GoneTried(s: State, u: nat, t: nat)
    requires Phases(s) && Launchable(s, u)
    ensures Gone(TryDispatch(s, u), t) == Gone(s, t)
  {
    var linked := if s.tasks[u].status.Rank() < Initialized.Rank() then Link(s.tasks, u, s.tasks[u].preds) else s.tasks;
    LinkKeepsTasks(s.tasks, u, s.tasks[u].preds);
    TriedTasks(s, u);
    assert t < |s.tasks| ==> SameButLinks(s.tasks[t], linked[t]);
    if t == u {
      GoneTriedItself(s, t);
    } else {
      hide TryDispatch, Link, Launchable, Phases;
    }
  }

  lemma GoneTriedItself(s: State, t: nat)
    requires Launchable(s, t)
    ensures Gone(TryDispatch(s, t), t) == Gone(s, t)
  {
    LinkKeepsTasks(s.tasks, t, s.tasks[t].preds);
    hide Link, PredsExecuted, HasResources, Pooled, TakeSegment;
  }

  lemma GoneByOne(s: State, e: Event, t: nat)
    requires Basic(s) && Enabled(s, e)
    ensures Gone(Step(s, e), t) == Gone(s, t) + if e == Retire(t) then 1 else 0
  {
    hide Shape, TryDispatch, Launchable, Pooled, DoNotify, DoRelease, DoFire, DoComplete, CanRetry;
    match e
    case Launch(u) => GoneLaunched(s, u, t);
    case Retry => GoneRetried(s, t);
    case Fire(u) => GoneFired(s, u, t);
    case Complete => GoneCompleted(s, t);
    case NotifyOne => GoneNotified(s, t);
    case Release => GoneReleased(s, t);
    case _ =>
  }

  lemma GoneLaunched(s: State, u: nat, t: nat)
    requires Phases(s) && Enabled(s, Event.Launch(u))
    ensures Gone(Step(s, Event.Launch(u)), t) == Gone(s, t)
  {
    GoneTried(s, u, t);
  }

  lemma GoneRetried(s: State, t: nat)
    requires Phases(s) && CanRetry(s)
    ensures Gone(DoRetry(s), t) == Gone(s, t)
  {
    var s1 := s.(handler := Draining(s.handler.todo, None));
    assert Phases(s1) by { assert forall i :: 0 <= i < |s.tasks| ==> TaskPhase(s.tasks[i]); }
    hide Phases, TryDispatch;
    GoneTried(s1, s.handler.hand.value, t);
  }

  lemma GoneFired(s: State, u: nat, t: nat)
    requires Phases(s) && CanFire(s, u)
    ensures Gone(DoFire(s, u), t) == Gone(s, t)
  {
    assert TaskPhase(s.tasks[u]);
  }

  lemma GoneNotified(s: State, t: nat)
    requires CanNotify(s)
    ensures Gone(DoNotify(s), t) == Gone(s, t)
  {
  }

  lemma GoneReleased(s: State, t: nat)
    requires CanRelease(s)
    ensures Gone(DoRelease(s), t) == Gone(s, t)
  {
  }

  lemma GoneCompleted(s: State, t: nat)
    requires Phases(s) && CanComplete(s)
    ensures Gone(DoComplete(s), t) == Gone(s, t)
  {
  }

  lemma {:induction false} GoneCounts(s: State, es: seq<Event>, t: nat)
    requires Initial(s) && Possible(s, es)
    ensures Gone(Exec(s, es), t) == RetireCount(es, t)
    decreases |es|
  {
    if |es| > 0 {
      var n := |es| - 1;
      PrefixPossible(s, es, n);
      assert es[..n + 1] == es;
      InitialHolds(s);
      RunKeeps(s, es[..n]);
      GoneCounts(s, es[..n], t);
      assert Basic(Exec(s, es[..n]));
      hide Inv, Initial, Possible, Exec, Gone, Basic;
      GoneByOne(Exec(s, es[..n]), es[n], t);
    }
  }

  /**
    A registered completion handler can run exactly when as many packets have been retired as its task was launched
    with, if no other handler is running, although signals are recycled; and its task is DISPATCHED then.
   */
  lemma FiresWhenDone(s: State, es: seq<Event>, k: nat, t: nat)
    requires Initial(s) && Possible(s, es) && Makes(s, es, k, t)
    requires t < |Exec(s, es).tasks| && Exec(s, es).tasks[t].registered && Exec(s, es).handler == Idle
    ensures CanFire(Exec(s, es), t) <==> RetireCount(es, t) == es[k].work
    ensures CanFire(Exec(s, es), t) ==> Exec(s, es).tasks[t].status == Dispatched
  {
    TaskIsAsLaunched(s, es, k, t);
    GoneCounts(s, es, t);
    InitialHolds(s);
    RunKeeps(s, es);
    hide Initial, Possible, Exec, Makes, RetireCount;
    FiresAtZero(Exec(s, es), t);
  }

  lemma FiresAtZero(s: State, t: nat)
    requires Phases(s) && SignalValues(s) && t < |s.tasks| && s.tasks[t].registered && s.handler == Idle
    ensures CanFire(s, t) <==> s.tasks[t].left == 0
    ensures s.tasks[t].status.Rank() >= Ready.Rank() && (s.tasks[t].left == 0 ==> s.tasks[t].status == Dispatched)
  {
    assert TaskPhase(s.tasks[t]);
  }

  // ---------------------------------------------------------------- the arguments

  /**
    While a kernel task is in flight, its segment holds the arguments staged at its launch, whatever other tasks
    did in between.
   */
  lemma ArgumentsSurvive(s: State, es: seq<Event>, k: nat, t: nat)
    requires Initial(s) && Possible(s, es) && Makes(s, es, k, t) && es[k].kernel.Some? && t < |Exec(s, es).tasks|
    requires Exec(s, es).tasks[t].status == Ready || Exec(s, es).tasks[t].status == Dispatched
    ensures es[k].kernel.value < |Exec(s, es).kernels|
    ensures var impl, segment := Exec(s, es).kernels[es[k].kernel.value], Exec(s, es).tasks[t].segment;
            segment < |impl.segments| && impl.copySize <= |es[k].image| == |impl.segments[segment]|
            && impl.segments[segment][..impl.copySize] == es[k].image[..impl.copySize]
  {
    TaskIsAsLaunched(s, es, k, t);
    hide Initial, Possible, Exec, Makes;
    ImageSurvives(s, es, t);
  }

  /** The end of a published task's segment is what `dispatch` filled in. */
  ghost predicate TailStands(s: State, t: nat, tail: seq<byte>) {
    t < |s.tasks| && s.tasks[t].status == Dispatched && s.tasks[t].kernel.Some? ==>
      && s.tasks[t].kernel.value < |s.kernels|
      && SegmentEnds(s.kernels[s.tasks[t].kernel.value], s.tasks[t].segment, tail)
  }

  ghost predicate SegmentEnds(k: KernelImpl, segment: nat, tail: seq<byte>) {
    segment < |k.segments| && k.copySize <= |k.segments[segment]| && k.segments[segment][k.copySize..] == tail
  }

  lemma PublishedEnds(s: State, t: nat, tail: seq<byte>)
    requires CanPublish(s, t, tail)
    ensures TailStands(DoPublish(s, t, tail), t, tail)
  {
  }

  /** Another segment of the same implementation may be written meanwhile, but not this one. */
  lemma OtherPublished(s: State, t: nat, tail: seq<byte>, u: nat, more: seq<byte>)
    requires Shape(s) && Phases(s) && Segments(s) && CanPublish(s, u, more) && TailStands(s, t, tail) && t < |s.tasks|
    requires s.tasks[t].status == Dispatched
    ensures TailStands(DoPublish(s, u, more), t, tail)
  {
    assert TaskPhase(s.tasks[t]) && TaskPhase(s.tasks[u]);
    if s.tasks[u].kernel.Some? && s.tasks[u].kernel == s.tasks[t].kernel {
      SegmentHoldersDiffer(s, t, u);
    }
  }

  lemma OtherClaimed(s: State, t: nat, tail: seq<byte>, u: nat)
    requires Shape(s) && Phases(s) && Segments(s) && Launchable(s, u) && TailStands(s, t, tail) && t < |s.tasks|
    requires s.tasks[t].status == Dispatched
    ensures TailStands(TryDispatch(s, u), t, tail)
  {
    assert TaskPhase(s.tasks[t]);
    if s.tasks[t].kernel.Some? { HeldSegmentIsNotFree(s, t); }
    hide Shape, Phases, Segments, TryDispatch, Launchable;
    DispatchedUntouched(s, u, t);
    TriedKernels(s, u);
  }

  lemma DispatchedUntouched(s: State, u: nat, t: nat)
    requires Launchable(s, u) && t < |s.tasks| && s.tasks[t].status == Dispatched
    ensures t < |TryDispatch(s, u).tasks| && SameButLinks(s.tasks[t], TryDispatch(s, u).tasks[t])
  {
    LinkKeepsTasks(s.tasks, u, s.tasks[u].preds);
    TriedTasks(s, u);
    if t == u {
      assert TryDispatch(s, u) == s;
    } else {
      hide TryDispatch, Link, Launchable;
    }
  }

  /** A try takes a free segment of one implementation, or none. */
  lemma TriedKernels(s: State, u: nat)
    requires Launchable(s, u)
    ensures |TryDispatch(s, u).kernels| == |s.kernels|
    ensures forall k, g :: 0 <= k < |s.kernels| && 0 <= g < |s.kernels[k].segments| && g !in s.kernels[k].free ==>
              g < |TryDispatch(s, u).kernels[k].segments| &&
              TryDispatch(s, u).kernels[k].segments[g] == s.kernels[k].segments[g]
    ensures forall k :: 0 <= k < |s.kernels| ==> TryDispatch(s, u).kernels[k].copySize == s.kernels[k].copySize
  {
    LinkKeepsTasks(s.tasks, u, s.tasks[u].preds);
    hide Link, PredsExecuted;
  }

  /** Whatever happens next, the tail of a task in flight stays, except that its handler may run. */
  lemma TailKept(s: State, e: Event, t: nat, tail: seq<byte>)
    requires Basic(s) && Segments(s) && Enabled(s, e) && TailStands(s, t, tail)
    requires t < |s.tasks| && s.tasks[t].status.Rank() >= Dispatched.Rank()
    ensures TailStands(Step(s, e), t, tail)
    ensures t < |Step(s, e).tasks| && Step(s, e).tasks[t].status.Rank() >= Dispatched.Rank()
  {
    StepAdvances(s, e);
    assert Advances(s.tasks[t], Step(s, e).tasks[t]);
    if Step(s, e).tasks[t].status == Dispatched {
      hide Shape, Phases, Segments, Advances;
      TailKeptInFlight(s, e, t, tail);
    }
  }

  lemma TailKeptInFlight(s: State, e: Event, t: nat, tail: seq<byte>)
    requires Basic(s) && Segments(s) && Enabled(s, e) && TailStands(s, t, tail)
    requires t < |s.tasks| && s.tasks[t].status == Dispatched
    ensures TailStands(Step(s, e), t, tail)
  {
    hide Shape, Phases, Segments, TryDispatch, Launchable, DoRelease, DoNotify, DoPublish, CanPublish, Pooled;
    match e
    case Launch(u) => OtherClaimed(s, t, tail, u);
    case Publish(u, more) => OtherPublished(s, t, tail, u, more);
    case Release => OtherReleased(s, t, tail);
    case NotifyOne => OtherNotified(s, t, tail);
    case Retry => OtherRetried(s, t, tail);
    case _ =>
  }

  lemma OtherRetried(s: State, t: nat, tail: seq<byte>)
    requires Basic(s) && Segments(s) && CanRetry(s) && TailStands(s, t, tail)
    requires t < |s.tasks| && s.tasks[t].status == Dispatched
    ensures TailStands(DoRetry(s), t, tail)
  {
    var s1 := s.(handler := Draining(s.handler.todo, None));
    assert Phases(s1) by { assert forall i :: 0 <= i < |s.tasks| ==> TaskPhase(s.tasks[i]); }
    assert Shape(s1) by { assert forall i :: 0 <= i < |s.tasks| ==> TaskShape(s, i) ==> TaskShape(s1, i); }
    assert Segments(s1) by { assert forall k :: 0 <= k < |s.kernels| ==> SegmentsOf(s, k) ==> SegmentsOf(s1, k); }
    hide Shape, Phases, Segments, TryDispatch;
    OtherClaimed(s1, t, tail, s.handler.hand.value);
  }

  lemma OtherReleased(s: State, t: nat, tail: seq<byte>)
    requires CanRelease(s) && TailStands(s, t, tail)
    ensures TailStands(DoRelease(s), t, tail)
  {
  }

  lemma OtherNotified(s: State, t: nat, tail: seq<byte>)
    requires CanNotify(s) && TailStands(s, t, tail)
    ensures TailStands(DoNotify(s), t, tail)
  {
  }

  lemma {:induction false} TailKeptOver(s: State, es: seq<Event>, t: nat, tail: seq<byte>)
    requires Inv(s) && Possible(s, es) && TailStands(s, t, tail)
    requires t < |s.tasks| && s.tasks[t].status.Rank() >= Dispatched.Rank()
    ensures TailStands(Exec(s, es), t, tail)
    decreases |es|
  {
    if |es| > 0 {
      assert Basic(s) && Segments(s);
      TailKept(s, es[0], t, tail);
      StepKeeps(s, es[0]);
      hide Inv, TailStands;
      TailKeptOver(Step(s, es[0]), es[1..], t, tail);
    }
  }

  /** What `dispatch` filled in stands in the task's segment until its handler runs. */
  lemma TailSurvives(s: State, es: seq<Event>, j: nat, t: nat, tail: seq<byte>)
    requires Initial(s) && Possible(s, es) && j < |es| && es[j] == Publish(t, tail)
    ensures TailStands(Exec(s, es), t, tail)
  {
    InitialHolds(s);
    PrefixPossible(s, es, j);
    ExecSplit(s, es, j + 1);
    RunKeeps(s, es[..j + 1]);
    var s1 := Exec(s, es[..j]);
    assert CanPublish(s1, t, tail) && Exec(s, es[..j + 1]) == DoPublish(s1, t, tail);
    hide Inv, Initial, Possible, Exec, TailStands;
    PublishedEnds(s1, t, tail);
    TailKeptOver(Exec(s, es[..j + 1]), es[j + 1..], t, tail);
  }

  /**
    While a kernel runs, its segment consists of the arguments staged at the launch and, from `copySize` on, of
    what the dispatch filled in.
   */
  lemma SegmentIsAsDispatched(s: State, es: seq<Event>, k: nat, j: nat, t: nat, tail: seq<byte>)
    requires Initial(s) && Possible(s, es) && Makes(s, es, k, t) && es[k].kernel.Some?
    requires j < |es| && es[j] == Publish(t, tail)
    requires t < |Exec(s, es).tasks| && Exec(s, es).tasks[t].status == Dispatched
    ensures es[k].kernel.value < |Exec(s, es).kernels|
    ensures var impl, segment := Exec(s, es).kernels[es[k].kernel.value], Exec(s, es).tasks[t].segment;
            segment < |impl.segments| && impl.copySize <= |es[k].image|
            && impl.segments[segment] == es[k].image[..impl.copySize] + tail
  {
    TaskIsAsLaunched(s, es, k, t);
    TailSurvives(s, es, j, t, tail);
    hide Initial, Possible, Exec, Makes;
    ArgumentsSurvive(s, es, k, t);
    var impl, segment := Exec(s, es).kernels[es[k].kernel.value], Exec(s, es).tasks[t].segment;
    assert impl.segments[segment] == impl.segments[segment][..impl.copySize] + impl.segments[segment][impl.copySize..];
  }
}
