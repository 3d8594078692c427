/** What holds in every state that a run of the callback-mode scheduler reaches. */
module HostCallbackSafety {
  import opened Wrappers
  import opened Bags
  import opened TaskStates
  import opened HostCallback
  import opened HostCallbackInvariant
  import opened HostCallbackSteps
  import opened HostCallbackDispatch

  // ---------------------------------------------------------------- the invariant over runs

  lemma InitialHolds(s: State)
    requires Initial(s)
    ensures Inv(s)
  {
    IdsEachOnce(s.maxSignals);
    IdsEachOnce(MAX_NUM_KERNELS);
    assert SignalPool(s) by {
      assert multiset(s.freeSignals) + Total(s.tasks, HeldSignal) == multiset(Ids(s.maxSignals));
    }
    forall k | 0 <= k < |s.kernels|
      ensures SegmentsOf(s, k)
    {
      assert multiset(s.kernels[k].free) + Total(s.tasks, HeldSegment(k)) == multiset(Ids(MAX_NUM_KERNELS));
    }
    assert WaitBag(s) == multiset{};
  }

  lemma PublishKeeps(s: State, t: nat, tail: seq<byte>)
    requires Inv(s) && CanPublish(s, t, tail)
    ensures Inv(DoPublish(s, t, tail))
  {
    var s' := DoPublish(s, t, tail);
    assert Basic(s') by { PublishBasic(s, t, tail); }
    assert Links(s') by { PublishLinks(s, t, tail); }
    assert Signals(s') by { PublishSignals(s, t, tail); }
    assert Segments(s') by { PublishSegments(s, t, tail); }
    assert s.tasks[t].holding by { assert TaskPhase(s.tasks[t]); }
    assert Memory(s') by { PublishMemory(s, t, tail); }
    assert Queues(s') by { PublishQueues(s, t, tail); }
  }

  lemma NotifyKeeps(s: State)
    requires Inv(s) && CanNotify(s)
    ensures Inv(DoNotify(s))
  {
    var s' := DoNotify(s);
    assert Shape(s') by { NotifyShape(s); }
    assert Phases(s') by { NotifyPhases(s); }
    assert Counts(s') by { NotifyCounts(s); }
    assert Covered(s') by { NotifyCovered(s); }
    assert Resources(s') by { NotifyResources(s); }
    assert Waiting(s', None) by { NotifyWaiting(s); }
    assert Blocked(s') by { NotifyBlocked(s); }
  }

  lemma ReleaseKeeps(s: State)
    requires Inv(s) && CanRelease(s)
    ensures Inv(DoRelease(s))
  {
    var s' := DoRelease(s);
    assert Basic(s') by { ReleaseBasic(s); }
    assert Links(s') by { ReleaseLinks(s); }
    assert Signals(s') by { ReleaseSignals(s); }
    assert Segments(s') by { ReleaseSegments(s); }
    assert Memory(s') by { ReleaseMemory(s); }
    assert Queues(s') by { ReleaseQueues(s); }
  }

  lemma CreateKeeps(s: State, preds: seq<nat>, kernel: Option<nat>, work: nat, image: seq<byte>)
    requires Inv(s) && CanCreate(s, preds, kernel, work, image)
    ensures Inv(DoCreate(s, preds, kernel, work, image))
  {
    var s' := DoCreate(s, preds, kernel, work, image);
    assert Basic(s') by { CreateBasic(s, preds, kernel, work, image); }
    assert Links(s') by { CreateLinks(s, preds, kernel, work, image); }
    assert Resources(s') by { CreateResources(s, preds, kernel, work, image); }
    assert Queues(s') by { CreateQueues(s, preds, kernel, work, image); }
  }

  lemma StepKeeps(s: State, e: Event)
    requires Inv(s) && Enabled(s, e)
    ensures Inv(Step(s, e))
  {
    hide Inv, TryDispatch, Launchable;
    match e
    case Create(preds, kernel, work, image) => CreateKeeps(s, preds, kernel, work, image);
    case Launch(t) => LaunchKeeps(s, t);
    case Publish(t, tail) => PublishKeeps(s, t, tail);
    case Register(t) => RegisterKeeps(s, t);
    case Retire(t) => RetireKeeps(s, t);
    case Fire(t) => FireKeeps(s, t);
    case NotifyOne => NotifyKeeps(s);
    case Release => ReleaseKeeps(s);
    case Complete => CompleteKeeps(s);
    case Snapshot => SnapshotKeeps(s);
    case Pop => PopKeeps(s);
    case Retry => RetryKeeps(s);
    case Quit => QuitKeeps(s);
  }

  lemma {:induction false} RunKeeps(s: State, es: seq<Event>)
    requires Inv(s) && Possible(s, es)
    ensures Inv(Exec(s, es))
    decreases |es|
  {
    if |es| > 0 {
      StepKeeps(s, es[0]);
      RunKeeps(Step(s, es[0]), es[1..]);
    }
  }

  // ---------------------------------------------------------------- dependencies

  /**
    Dependency safety, for every interleaving: once a task is READY, and so before any of its packets can
    start, every predecessor has been marked EXECUTED and has retired all its packets.
   */
  lemma RequiredExecuted(s: State, es: seq<Event>, t: nat, j: nat)
    requires Initial(s) && Possible(s, es)
    requires t < |Exec(s, es).tasks| && j < |Exec(s, es).tasks[t].preds|
    requires Exec(s, es).tasks[t].status.Rank() >= Ready.Rank()
    ensures var p := Exec(s, es).tasks[t].preds[j];
            && p < t
            && Exec(s, es).tasks[p].status.Rank() >= Executed.Rank()
            && Exec(s, es).tasks[p].left == 0
  {
    InitialHolds(s);
    RunKeeps(s, es);
    RequiredExecutedIn(Exec(s, es), t, j);
  }

  lemma RequiredExecutedIn(s: State, t: nat, j: nat)
    requires Shape(s) && Phases(s) && Links(s) && t < |s.tasks| && j < |s.tasks[t].preds|
    requires s.tasks[t].status.Rank() >= Ready.Rank()
    ensures var p := s.tasks[t].preds[j];
            p < t && s.tasks[p].status.Rank() >= Executed.Rank() && s.tasks[p].left == 0
  {
    assert TaskShape(s, t);
    var p := s.tasks[t].preds[j];
    assert CoveredBy(s.tasks, t, p);
    assert TaskPhase(s.tasks[t]) && TaskPhase(s.tasks[p]);
    TotalHas(s.tasks, p, Unnotified);
    assert Total(s.tasks, Unnotified)[t] == 0;
  }

  // ---------------------------------------------------------------- conservation

  /**
    The pool and the tasks in flight together hold exactly the signals made at start-up, none twice: each is
    either free, once, or held by exactly one task.
   */
  lemma SignalsConserved(s: State, es: seq<Event>, g: nat)
    requires Initial(s) && Possible(s, es) && g < s.maxSignals
    ensures var s' := Exec(s, es);
            && s'.maxSignals == s.maxSignals
            && multiset(s'.freeSignals)[g] <= 1
            && (g in s'.freeSignals <==>
                  forall i :: 0 <= i < |s'.tasks| && s'.tasks[i].holding ==> s'.tasks[i].signal != g)
            && forall i, j :: 0 <= i < j < |s'.tasks| && s'.tasks[i].holding && s'.tasks[j].holding ==>
                 s'.tasks[i].signal != s'.tasks[j].signal
  {
    InitialHolds(s);
    RunKeeps(s, es);
    SameLimits(s, es);
    var s' := Exec(s, es);
    var all := multiset(s'.freeSignals) + Total(s'.tasks, HeldSignal);
    assert all[g] == 1;
    if g in s'.freeSignals {
      forall i | 0 <= i < |s'.tasks| && s'.tasks[i].holding
        ensures s'.tasks[i].signal != g
      {
        HeldIsNotFree(s', i);
      }
    } else {
      var i := TotalFind(s'.tasks, g, HeldSignal);
      assert s'.tasks[i].holding && s'.tasks[i].signal == g;
    }
    forall i, j | 0 <= i < j < |s'.tasks| && s'.tasks[i].holding && s'.tasks[j].holding
      ensures s'.tasks[i].signal != s'.tasks[j].signal
    {
      HoldersDiffer(s', i, j);
    }
  }

  /** The task holds a segment of kernel implementation k. */
  predicate Holds(t: Task, k: nat) {
    t.holding && t.kernel == Some(k)
  }

  /** The same for the segments of every kernel implementation: numbers 0 to MAX_NUM_KERNELS - 1. */
  lemma SegmentsConserved(s: State, es: seq<Event>, k: nat, g: nat)
    requires Initial(s) && Possible(s, es) && k < |s.kernels| && g < MAX_NUM_KERNELS
    ensures var s' := Exec(s, es);
            && |s'.kernels| == |s.kernels|
            && multiset(s'.kernels[k].free)[g] <= 1
            && (g in s'.kernels[k].free <==>
                  forall i :: 0 <= i < |s'.tasks| && Holds(s'.tasks[i], k) ==> s'.tasks[i].segment != g)
            && forall i, j :: 0 <= i < j < |s'.tasks| && Holds(s'.tasks[i], k) && Holds(s'.tasks[j], k) ==>
                 s'.tasks[i].segment != s'.tasks[j].segment
  {
    InitialHolds(s);
    RunKeeps(s, es);
    SameLimits(s, es);
    SegmentsConservedIn(Exec(s, es), k, g);
  }

  lemma SegmentsConservedIn(s: State, k: nat, g: nat)
    requires Shape(s) && Segments(s) && k < |s.kernels| && g < MAX_NUM_KERNELS
    ensures multiset(s.kernels[k].free)[g] <= 1
    ensures g in s.kernels[k].free <==>
            forall i :: 0 <= i < |s.tasks| && Holds(s.tasks[i], k) ==> s.tasks[i].segment != g
    ensures forall i, j :: 0 <= i < j < |s.tasks| && Holds(s.tasks[i], k) && Holds(s.tasks[j], k) ==>
              s.tasks[i].segment != s.tasks[j].segment
  {
    assert SegmentsOf(s, k);
    var all := multiset(s.kernels[k].free) + Total(s.tasks, HeldSegment(k));
    assert all[g] == 1;
    if g in s.kernels[k].free {
      forall i | 0 <= i < |s.tasks| && Holds(s.tasks[i], k)
        ensures s.tasks[i].segment != g
      {
        HeldSegmentIsNotFree(s, i);
      }
    } else {
      var i := TotalFind(s.tasks, g, HeldSegment(k));
      assert Holds(s.tasks[i], k) && s.tasks[i].segment == g;
    }
    forall i, j | 0 <= i < j < |s.tasks| && Holds(s.tasks[i], k) && Holds(s.tasks[j], k)
      ensures s.tasks[i].segment != s.tasks[j].segment
    {
      SegmentHoldersDiffer(s, i, j);
    }
  }

  /** Pools are neither added nor resized. */
  ghost predicate SameMachine(s: State, s': State) {
    && s'.maxSignals == s.maxSignals && |s'.kernels| == |s.kernels|
    && forall k :: 0 <= k < |s.kernels| ==>
         s'.kernels[k].segmentSize == s.kernels[k].segmentSize && s'.kernels[k].copySize == s.kernels[k].copySize
  }

  lemma StepSameMachine(s: State, e: Event)
    requires Enabled(s, e)
    ensures SameMachine(s, Step(s, e))
  {
    match e
    case Launch(t) => TrySameMachine(s, t);
    case Retry => TrySameMachine(s.(handler := Draining(s.handler.todo, None)), s.handler.hand.value);
    case _ =>
  }

  lemma TrySameMachine(s: State, t: nat)
    requires Launchable(s, t)
    ensures SameMachine(s, TryDispatch(s, t))
  {
    LinkKeepsTasks(s.tasks, t, s.tasks[t].preds);
  }

  lemma {:induction false} SameLimits(s: State, es: seq<Event>)
    requires Possible(s, es)
    ensures SameMachine(s, Exec(s, es))
    decreases |es|
  {
    if |es| > 0 {
      StepSameMachine(s, es[0]);
      SameLimits(Step(s, es[0]), es[1..]);
    }
  }

  /** Something was taken off the front, or added at the end. */
  ghost predicate FrontOrEnd<T>(a: seq<T>, b: seq<T>) {
    a <= b || (|a| > 0 && b == a[1..])
  }

  /** The ready queue and the pools are first in, first out, and only the callback thread takes a task off the queue. */
  lemma FirstInFirstOut(s: State, e: Event)
    requires Enabled(s, e)
    ensures var s' := Step(s, e);
            && (if e.Pop? && |s.readyQueue| > 0 then s'.readyQueue == s.readyQueue[1..]
                else s.readyQueue <= s'.readyQueue)
            && FrontOrEnd(s.freeSignals, s'.freeSignals) && |s'.kernels| == |s.kernels|
            && forall k :: 0 <= k < |s.kernels| ==> FrontOrEnd(s.kernels[k].free, s'.kernels[k].free)
  {
    hide TryDispatch, Pooled;
    match e
    case Launch(t) => TriedFronts(s, t);
    case Retry => TriedFronts(s.(handler := Draining(s.handler.todo, None)), s.handler.hand.value);
    case _ =>
  }

  lemma TriedFronts(s: State, t: nat)
    requires Launchable(s, t)
    ensures var s' := TryDispatch(s, t);
            && s.readyQueue <= s'.readyQueue && FrontOrEnd(s.freeSignals, s'.freeSignals)
            && |s'.kernels| == |s.kernels|
            && forall k :: 0 <= k < |s.kernels| ==> FrontOrEnd(s.kernels[k].free, s'.kernels[k].free)
  {
    LinkKeepsTasks(s.tasks, t, s.tasks[t].preds);
    hide Link, PredsExecuted;
  }

  // ---------------------------------------------------------------- state_ never goes backwards

  /** What the caller fixed stays, the state only advances, and successors are added at the end. */
  ghost predicate Advances(a: Task, b: Task) {
    && b.preds == a.preds && b.kernel == a.kernel && b.work == a.work && b.image == a.image
    && a.status.Rank() <= b.status.Rank() && a.succs <= b.succs
  }

  ghost predicate AllAdvance(a: seq<Task>, b: seq<Task>) {
    |a| <= |b| && forall i :: 0 <= i < |a| ==> Advances(a[i], b[i])
  }

  lemma TryAdvances(s: State, t: nat)
    requires Launchable(s, t)
    ensures AllAdvance(s.tasks, TryDispatch(s, t).tasks)
  {
    var linked := Link(s.tasks, t, s.tasks[t].preds);
    LinkKeepsTasks(s.tasks, t, s.tasks[t].preds);
    assert forall i :: 0 <= i < |s.tasks| ==> SameButLinks(s.tasks[i], linked[i]);
    TriedTasks(s, t);
    hide TryDispatch, Link, PredsExecuted, HasResources, Regions;
  }

  /** A try changes links, and the task it tries. */
  lemma TriedTasks(s: State, t: nat)
    requires Launchable(s, t)
    ensures var linked := if s.tasks[t].status.Rank() < Initialized.Rank() then Link(s.tasks, t, s.tasks[t].preds)
                          else s.tasks;
            |TryDispatch(s, t).tasks| == |linked| && TryDispatch(s, t).tasks == linked[t := TryDispatch(s, t).tasks[t]]
            && Advances(linked[t], TryDispatch(s, t).tasks[t])
  {
    LinkKeepsTasks(s.tasks, t, s.tasks[t].preds);
    hide Link, PredsExecuted, HasResources, Pooled, TakeSegment;
  }

  lemma StepAdvances(s: State, e: Event)
    requires Phases(s) && Enabled(s, e)
    ensures AllAdvance(s.tasks, Step(s, e).tasks)
  {
    hide TryDispatch, Launchable, Pooled, Phases, CanRetry, DoRetry;
    match e
    case Launch(t) => TryAdvances(s, t);
    case Retry => RetryAdvances(s);
    case Fire(t) => FireAdvances(s, t);
    case NotifyOne => NotifyAdvances(s);
    case Complete => CompleteAdvances(s);
    case _ =>
  }

  lemma RetryAdvances(s: State)
    requires CanRetry(s)
    ensures AllAdvance(s.tasks, DoRetry(s).tasks)
  {
    hide TryDispatch;
    TryAdvances(s.(handler := Draining(s.handler.todo, None)), s.handler.hand.value);
  }

  lemma FireAdvances(s: State, t: nat)
    requires Phases(s) && CanFire(s, t)
    ensures AllAdvance(s.tasks, DoFire(s, t).tasks)
  {
    assert TaskPhase(s.tasks[t]);
  }

  lemma CompleteAdvances(s: State)
    requires CanComplete(s)
    ensures AllAdvance(s.tasks, DoComplete(s).tasks)
  {
  }

  lemma NotifyAdvances(s: State)
    requires CanNotify(s)
    ensures AllAdvance(s.tasks, DoNotify(s).tasks)
  {
  }

  lemma {:induction false} RunAdvances(s: State, es: seq<Event>)
    requires Inv(s) && Possible(s, es)
    ensures AllAdvance(s.tasks, Exec(s, es).tasks)
    decreases |es|
  {
    if |es| > 0 {
      var s1 := Step(s, es[0]);
      StepKeeps(s, es[0]);
      StepAdvances(s, es[0]);
      RunAdvances(s1, es[1..]);
      forall i | 0 <= i < |s.tasks|
        ensures Advances(s.tasks[i], Exec(s, es).tasks[i])
      {
        assert Advances(s.tasks[i], s1.tasks[i]);
      }
    }
  }

  /** The first try of a task, its dispatch and the run of its handler, with the state each starts from. */
  predicate StageEvent(e: Event) {
    e.Launch? || e.Publish? || e.Fire?
  }

  function StageFloor(e: Event): int
    requires StageEvent(e)
  {
    if e.Launch? then Uninitialized.Rank() else if e.Publish? then Ready.Rank() else Dispatched.Rank()
  }

  predicate SameStage(a: Event, b: Event) {
    StageEvent(a) && StageEvent(b) && StageFloor(a) == StageFloor(b) && a.task == b.task
  }

  lemma StageRises(s: State, e: Event)
    requires Phases(s) && SignalValues(s) && Enabled(s, e) && StageEvent(e)
    ensures e.task < |s.tasks| && s.tasks[e.task].status.Rank() == StageFloor(e)
    ensures e.task < |Step(s, e).tasks| && Step(s, e).tasks[e.task].status.Rank() > StageFloor(e)
  {
    assert e.Fire? ==> TaskPhase(s.tasks[e.task]);
    if e.Launch? { LinkKeepsTasks(s.tasks, e.task, s.tasks[e.task].preds); }
  }

  lemma {:induction false} PrefixPossible(s: State, es: seq<Event>, k: nat)
    requires Possible(s, es) && k < |es|
    ensures Possible(s, es[..k]) && Possible(s, es[..k + 1])
    ensures Enabled(Exec(s, es[..k]), es[k])
    ensures Exec(s, es[..k + 1]) == Step(Exec(s, es[..k]), es[k])
    decreases |es|
  {
    assert es[..k + 1][1..] == es[1..][..k];
    if k > 0 {
      assert es[..k][1..] == es[1..][..k - 1];
      assert es[..k + 1][0] == es[0] && es[..k][0] == es[0] && es[1..][k - 1] == es[k];
      PrefixPossible(Step(s, es[0]), es[1..], k - 1);
    }
  }

  /** How far task t has come before the k-th event of a run. */
  ghost function RankAt(s: State, es: seq<Event>, k: nat, t: nat): int
    requires k <= |es| && Possible(s, es[..k])
  {
    RankOf(Exec(s, es[..k]), t)
  }

  ghost function RankOf(s: State, t: nat): int {
    if t < |s.tasks| then s.tasks[t].status.Rank() else Uninitialized.Rank()
  }

  lemma RankRises(s: State, es: seq<Event>, k: nat, t: nat)
    requires Inv(s) && Possible(s, es) && k < |es|
    ensures Possible(s, es[..k]) && Possible(s, es[..k + 1])
    ensures RankAt(s, es, k, t) <= RankAt(s, es, k + 1, t)
    ensures StageEvent(es[k]) && es[k].task == t ==>
              RankAt(s, es, k, t) == StageFloor(es[k]) < RankAt(s, es, k + 1, t)
  {
    PrefixPossible(s, es, k);
    assert Phases(Exec(s, es[..k])) && SignalValues(Exec(s, es[..k])) by { RunKeeps(s, es[..k]); }
    StepRank(Exec(s, es[..k]), es[k], t);
  }

  lemma StepRank(s: State, e: Event, t: nat)
    requires Phases(s) && SignalValues(s) && Enabled(s, e)
    ensures RankOf(s, t) <= RankOf(Step(s, e), t)
    ensures StageEvent(e) && e.task == t ==> RankOf(s, t) == StageFloor(e) < RankOf(Step(s, e), t)
  {
    hide Phases, SignalValues, Step, Enabled;
    StepAdvances(s, e);
    if t < |s.tasks| { assert Advances(s.tasks[t], Step(s, e).tasks[t]); }
    if StageEvent(e) { StageRises(s, e); }
  }

  lemma {:induction false} RankRisesBetween(s: State, es: seq<Event>, i: nat, j: nat, t: nat)
    requires Inv(s) && Possible(s, es) && i <= j < |es|
    ensures Possible(s, es[..i]) && Possible(s, es[..j])
    ensures RankAt(s, es, i, t) <= RankAt(s, es, j, t)
    decreases j - i
  {
    PrefixPossible(s, es, i);
    if i < j {
      RankRises(s, es, i, t);
      RankRisesBetween(s, es, i + 1, j, t);
    }
  }

  /** However the threads interleave, a task is first tried once, dispatched once, and its handler runs once. */
  lemma EachStageOnce(s: State, es: seq<Event>, i: nat, j: nat)
    requires Initial(s) && Possible(s, es) && i < j < |es|
    ensures !SameStage(es[i], es[j])
  {
    InitialHolds(s);
    if SameStage(es[i], es[j]) {
      RankRises(s, es, i, es[i].task);
      RankRises(s, es, j, es[i].task);
      RankRisesBetween(s, es, i + 1, j, es[i].task);
    }
  }

  // ---------------------------------------------------------------- signals and arguments of a task in flight

  /**
    While a kernel task is in flight, its segment holds the arguments staged when it was launched, whatever
    other tasks did in between.
   */
  lemma ImageSurvives(s: State, es: seq<Event>, t: nat)
    requires Initial(s) && Possible(s, es) && t < |Exec(s, es).tasks|
    requires Exec(s, es).tasks[t].status == Ready || Exec(s, es).tasks[t].status == Dispatched
    requires Exec(s, es).tasks[t].kernel.Some?
    ensures var s' := Exec(s, es);
            var task := s'.tasks[t];
            && task.kernel.value < |s'.kernels|
            && task.segment < |s'.kernels[task.kernel.value].segments|
            && s'.kernels[task.kernel.value].copySize <= |task.image|
            && |s'.kernels[task.kernel.value].segments[task.segment]| == |task.image|
            && s'.kernels[task.kernel.value].segments[task.segment][..s'.kernels[task.kernel.value].copySize]
               == task.image[..s'.kernels[task.kernel.value].copySize]
  {
    InitialHolds(s);
    RunKeeps(s, es);
    var s' := Exec(s, es);
    assert TaskPhase(s'.tasks[t]);
    assert TaskShape(s', t);
    assert Pooled(s'.kernels[s'.tasks[t].kernel.value]);
    assert SegmentHolds(s'.kernels[s'.tasks[t].kernel.value], s'.tasks[t].segment, s'.tasks[t].image);
  }
}
