/**
  An ordered task group in callback mode: tasks of asynchronous launches become READY one after the other,
  whoever tries to dispatch them and whenever (`tryDispatchHostCallback`, `doProgress`, `TaskgroupImpl::sync`).
 */
module OrderedGroup {
  import opened Wrappers
  import opened TaskStates

  /** Copies go to the SDMA engines, kernels to the queues of their device. */
  datatype Kind = Copy | CpuKernel | GpuKernel

  datatype OTask = OTask(kind: Kind, prev: Option<nat>, status: Status)

  /** A sync waits for a task, and then forgets last_task_ and clears the deque, each under a lock of its own. */
  datatype Sync = NoSync | Waiting(task: nat) | Forgotten

  /** All tasks ever launched into the group, running_ordered_tasks_, last_task_ and where sync is. */
  datatype OState = OState(tasks: seq<OTask>, running: seq<nat>, last: Option<nat>, sync: Sync)

  /**
    A launch, an attempt to dispatch any task, whose requires are or are not met and for which there are or are
    not a signal and a segment, a task's move from READY to DISPATCHED, EXECUTED and COMPLETED, and what sync does.
   */
  datatype OEvent =
    | Launch(kind: Kind)
    | TryDispatch(task: nat, requiresMet: bool, resources: bool)
    | Move(task: nat)
    | Begin
    | Forget
    | Clear

  // ---------------------------------------------------------------- the steps

  function DoLaunch(s: OState, kind: Kind): OState {
    OState(s.tasks + [OTask(kind, s.last, Uninitialized)], s.running + [|s.tasks|], Some(|s.tasks|), s.sync)
  }

  /** `prev_ordered_task_` keeps the task from being dispatched. */
  predicate HeldBack(s: OState, t: nat)
    requires t < |s.tasks|
  {
    match s.tasks[t].prev
    case None => false
    case Some(p) =>
      p < |s.tasks| &&
      if s.tasks[p].kind == s.tasks[t].kind then s.tasks[p].status.Rank() < Ready.Rank()
      else s.tasks[p].status.Rank() < Executed.Rank()
  }

  predicate Goes(s: OState, t: nat, requiresMet: bool, resources: bool)
    requires t < |s.tasks|
  {
    s.tasks[t].status.Rank() < Ready.Rank() && requiresMet && !HeldBack(s, t) && resources
  }

  predicate CanTry(s: OState, t: nat, requiresMet: bool, resources: bool) {
    t < |s.tasks| && (Goes(s, t, requiresMet, resources) ==> |s.running| > 0)
  }

  /** The front of running_ordered_tasks_ is popped without a look at it. */
  function DoTry(s: OState, t: nat, requiresMet: bool, resources: bool): OState
    requires CanTry(s, t, requiresMet, resources)
  {
    if s.tasks[t].status.Rank() >= Ready.Rank() then s
    else if Goes(s, t, requiresMet, resources) then
      s.(tasks := s.tasks[t := s.tasks[t].(status := Ready)], running := s.running[1..])
    else s.(tasks := s.tasks[t := s.tasks[t].(status := Initialized)])
  }

  predicate CanMove(s: OState, t: nat) {
    t < |s.tasks| && Ready.Rank() <= s.tasks[t].status.Rank() < Completed.Rank()
  }

  function Next(status: Status): Status {
    match status
    case Ready => Dispatched
    case Dispatched => Executed
    case _ => Completed
  }

  function DoMove(s: OState, t: nat): OState
    requires CanMove(s, t)
  {
    s.(tasks := s.tasks[t := s.tasks[t].(status := Next(s.tasks[t].status))])
  }

  /** The wait for the task that was the last when sync began is over. */
  predicate CanForget(s: OState) {
    s.sync.Waiting? && s.sync.task < |s.tasks| && s.tasks[s.sync.task].status == Completed
  }

  predicate Enabled(s: OState, e: OEvent) {
    match e
    case Launch(_) => true
    case TryDispatch(t, requiresMet, resources) => CanTry(s, t, requiresMet, resources)
    case Move(t) => CanMove(s, t)
    case Begin => s.sync.NoSync? && s.last.Some?
    case Forget => CanForget(s)
    case Clear => s.sync.Forgotten?
  }

  function Step(s: OState, e: OEvent): OState
    requires Enabled(s, e)
  {
    match e
    case Launch(kind) => DoLaunch(s, kind)
    case TryDispatch(t, requiresMet, resources) => DoTry(s, t, requiresMet, resources)
    case Move(t) => DoMove(s, t)
    case Begin => s.(sync := Waiting(s.last.value))
    case Forget => s.(last := None, sync := Forgotten)
    case Clear => s.(running := [], sync := NoSync)
  }

  predicate Possible(s: OState, es: seq<OEvent>)
    decreases |es|
  {
    |es| > 0 ==> Enabled(s, es[0]) && Possible(Step(s, es[0]), es[1..])
  }

  function Exec(s: OState, es: seq<OEvent>): OState
    requires Possible(s, es)
    decreases |es|
  {
    if |es| == 0 then s else Exec(Step(s, es[0]), es[1..])
  }

  const EMPTY := OState([], [], None, NoSync)

  /** Nothing is launched into the group while it is being synchronised. */
  predicate Apart(s: OState, es: seq<OEvent>)
    requires Possible(s, es)
    decreases |es|
  {
    |es| > 0 ==> (es[0].Launch? ==> s.sync.NoSync?) && Apart(Step(s, es[0]), es[1..])
  }

  predicate LastExecuted(s: OState) {
    |s.tasks| > 0 ==> s.tasks[|s.tasks| - 1].status.Rank() >= Executed.Rank()
  }

  /** The task launched last has executed when last_task_ is forgotten, and the deque is empty when it is cleared. */
  predicate Careful(s: OState, es: seq<OEvent>)
    requires Possible(s, es)
    decreases |es|
  {
    |es| > 0 ==>
      && (es[0].Forget? ==> LastExecuted(s)) && (es[0].Clear? ==> s.running == [])
      && Careful(Step(s, es[0]), es[1..])
  }

  // ---------------------------------------------------------------- the invariant

  predicate IsReady(s: OState, t: nat)
    requires t < |s.tasks|
  {
    s.tasks[t].status.Rank() >= Ready.Rank()
  }

  /** The number of tasks that have become READY. */
  function ReadyCount(s: OState): int {
    |s.tasks| - |s.running|
  }

  /** The deque holds the tasks that are not READY, in the order of their launches. */
  ghost predicate Deque(s: OState) {
    && 0 <= ReadyCount(s) && (forall i :: 0 <= i < |s.running| ==> s.running[i] == ReadyCount(s) + i)
    && forall t :: 0 <= t < |s.tasks| ==> (s.tasks[t].status.Rank() >= Ready.Rank() <==> t < ReadyCount(s))
  }

  /** Each task's predecessor is the one launched before it, unless that one had executed when it was forgotten. */
  ghost predicate Chain(s: OState) {
    && (forall t {:trigger s.tasks[t]} :: 0 <= t < |s.tasks| ==> LinkOk(s, t, s.tasks[t].prev))
    && LinkOk(s, |s.tasks|, s.last)
  }

  ghost predicate LinkOk(s: OState, t: nat, prev: Option<nat>)
    requires t <= |s.tasks|
  {
    if t > 0 && prev.Some? then prev.value == t - 1
    else prev.None? && (t > 0 ==> s.tasks[t - 1].status.Rank() >= Executed.Rank())
  }

  /** A task past a change of kind has an EXECUTED task before it. */
  ghost predicate Handover(s: OState) {
    forall t {:trigger s.tasks[t]} :: 0 < t < |s.tasks| && IsReady(s, t) && s.tasks[t - 1].kind != s.tasks[t].kind ==>
      s.tasks[t - 1].status.Rank() >= Executed.Rank()
  }

  ghost predicate Inv(s: OState) {
    Deque(s) && Chain(s) && Handover(s)
  }

  // ---------------------------------------------------------------- the steps keep it

  ghost predicate IsFront(s: OState, t: nat) {
    |s.running| > 0 && s.running[0] == t == ReadyCount(s) && t < |s.tasks|
  }

  /** What is dispatched is the front of the deque. */
  lemma GoesIsFront(s: OState, t: nat, requiresMet: bool, resources: bool)
    requires Inv(s) && t < |s.tasks| && Goes(s, t, requiresMet, resources)
    ensures IsFront(s, t)
  {
    assert LinkOk(s, t, s.tasks[t].prev);
    if t > 0 {
      assert IsReady(s, t - 1);
    }
  }

  lemma MayTry(s: OState, t: nat, requiresMet: bool, resources: bool)
    requires Inv(s) && t < |s.tasks|
    ensures CanTry(s, t, requiresMet, resources) && (s.tasks[t].prev.Some? ==> s.tasks[t].prev.value < |s.tasks|)
  {
    assert LinkOk(s, t, s.tasks[t].prev);
    if Goes(s, t, requiresMet, resources) {
      GoesIsFront(s, t, requiresMet, resources);
    }
  }

  lemma DispatchKeeps(s: OState, t: nat)
    requires Inv(s) && IsFront(s, t) && Goes(s, t, true, true)
    ensures Inv(DoTry(s, t, true, true))
  {
    hide Deque, Chain, Handover, Goes;
    DispatchDeque(s, t);
    DispatchChain(s, t);
    DispatchHandover(s, t);
  }

  lemma DispatchDeque(s: OState, t: nat)
    requires Deque(s) && IsFront(s, t) && Goes(s, t, true, true)
    ensures Deque(DoTry(s, t, true, true))
  {
    hide HeldBack;
    var s' := DoTry(s, t, true, true);
    forall i | 0 <= i < |s'.running|
      ensures s'.running[i] == ReadyCount(s') + i
    {
      assert s'.running[i] == s.running[i + 1];
    }
  }

  lemma DispatchChain(s: OState, t: nat)
    requires Chain(s) && IsFront(s, t) && Goes(s, t, true, true)
    ensures Chain(DoTry(s, t, true, true))
  {
    hide HeldBack;
  }

  lemma DispatchHandover(s: OState, t: nat)
    requires Chain(s) && Handover(s) && IsFront(s, t) && Goes(s, t, true, true)
    ensures Handover(DoTry(s, t, true, true))
  {
    PreviousExecuted(s, t);
    hide HeldBack, Chain;
  }

  /** A task that may go past a change of kind has an EXECUTED task before it. */
  lemma PreviousExecuted(s: OState, t: nat)
    requires Chain(s) && 0 <= t < |s.tasks| && !HeldBack(s, t)
    ensures t > 0 && s.tasks[t - 1].kind != s.tasks[t].kind ==> s.tasks[t - 1].status.Rank() >= Executed.Rank()
  {
    assert LinkOk(s, t, s.tasks[t].prev);
  }

  lemma TryKeeps(s: OState, t: nat, requiresMet: bool, resources: bool)
    requires Inv(s) && CanTry(s, t, requiresMet, resources)
    ensures Inv(DoTry(s, t, requiresMet, resources))
  {
    if Goes(s, t, requiresMet, resources) {
      GoesIsFront(s, t, requiresMet, resources);
      DispatchKeeps(s, t);
    } else {
      StayKeeps(s, t, requiresMet, resources);
    }
  }

  lemma StayKeeps(s: OState, t: nat, requiresMet: bool, resources: bool)
    requires Inv(s) && CanTry(s, t, requiresMet, resources) && !Goes(s, t, requiresMet, resources)
    ensures Inv(DoTry(s, t, requiresMet, resources))
  {
    assert LinkOk(s, t, s.tasks[t].prev);
  }

  lemma MoveKeeps(s: OState, t: nat)
    requires Inv(s) && CanMove(s, t)
    ensures Inv(DoMove(s, t))
  {
    MoveChain(s, t);
    MoveHandover(s, t);
    hide Chain, Handover;
  }

  lemma MoveChain(s: OState, t: nat)
    requires Chain(s) && CanMove(s, t)
    ensures Chain(DoMove(s, t))
  {
  }

  lemma MoveHandover(s: OState, t: nat)
    requires Handover(s) && CanMove(s, t)
    ensures Handover(DoMove(s, t))
  {
  }

  lemma LaunchKeeps(s: OState, kind: Kind)
    requires Inv(s)
    ensures Inv(DoLaunch(s, kind))
  {
    hide Deque, Chain, Handover;
    LaunchDeque(s, kind);
    LaunchChain(s, kind);
    LaunchHandover(s, kind);
  }

  lemma LaunchDeque(s: OState, kind: Kind)
    requires Deque(s)
    ensures Deque(DoLaunch(s, kind))
  {
  }

  lemma LaunchChain(s: OState, kind: Kind)
    requires Chain(s)
    ensures Chain(DoLaunch(s, kind))
  {
    var s' := DoLaunch(s, kind);
    forall t | 0 <= t < |s'.tasks|
      ensures LinkOk(s', t, s'.tasks[t].prev)
    {
      if t < |s.tasks| { assert LinkOk(s, t, s.tasks[t].prev); }
    }
  }

  lemma LaunchHandover(s: OState, kind: Kind)
    requires Handover(s)
    ensures Handover(DoLaunch(s, kind))
  {
    var s' := DoLaunch(s, kind);
    assert forall t :: 0 <= t < |s.tasks| ==> s'.tasks[t] == s.tasks[t];
  }

  lemma ForgetKeeps(s: OState)
    requires Inv(s) && CanForget(s) && LastExecuted(s)
    ensures Inv(Step(s, Forget))
  {
    var s' := Step(s, Forget);
    forall t | 0 <= t < |s.tasks|
      ensures LinkOk(s', t, s'.tasks[t].prev)
    {
      assert LinkOk(s, t, s.tasks[t].prev);
    }
  }

  lemma ClearKeeps(s: OState)
    requires Inv(s) && s.sync.Forgotten? && s.running == []
    ensures Inv(Step(s, Clear))
  {
    OnlySync(s, NoSync);
  }

  /** Nothing else depends on where sync is. */
  lemma OnlySync(s: OState, sync: Sync)
    requires Inv(s)
    ensures Inv(s.(sync := sync))
  {
    var s' := s.(sync := sync);
    forall t | 0 <= t < |s.tasks|
      ensures LinkOk(s', t, s'.tasks[t].prev)
    {
      assert LinkOk(s, t, s.tasks[t].prev);
    }
  }

  lemma StepKeeps(s: OState, e: OEvent)
    requires Inv(s) && Enabled(s, e)
    requires (e.Forget? ==> LastExecuted(s)) && (e.Clear? ==> s.running == [])
    ensures Inv(Step(s, e))
  {
    hide Inv, Goes;
    match e
    case Launch(kind) => LaunchKeeps(s, kind);
    case TryDispatch(t, requiresMet, resources) => TryKeeps(s, t, requiresMet, resources);
    case Move(t) => MoveKeeps(s, t);
    case Begin => OnlySync(s, Waiting(s.last.value));
    case Forget => ForgetKeeps(s);
    case Clear => ClearKeeps(s);
  }

  lemma {:induction false} RunKeeps(s: OState, es: seq<OEvent>)
    requires Inv(s) && Possible(s, es) && Careful(s, es)
    ensures Inv(Exec(s, es))
    decreases |es|
  {
    hide Inv;
    if |es| > 0 {
      StepKeeps(s, es[0]);
      RunKeeps(Step(s, es[0]), es[1..]);
    }
  }

  // ---------------------------------------------------------------- events of a run

  lemma {:induction false} ExecSplit(s: OState, es: seq<OEvent>, k: nat)
    requires Possible(s, es) && k <= |es|
    ensures Possible(s, es[..k]) && Possible(Exec(s, es[..k]), es[k..])
    ensures Exec(Exec(s, es[..k]), es[k..]) == Exec(s, es)
    ensures Careful(s, es) ==> Careful(s, es[..k])
    decreases k
  {
    if k == 0 {
      assert es[..0] == [] && es[0..] == es;
    } else {
      assert es[..k][1..] == es[1..][..k - 1] && es[1..][k - 1..] == es[k..];
      ExecSplit(Step(s, es[0]), es[1..], k - 1);
    }
  }

  /** Event k of the run launches task t. */
  ghost predicate Makes(es: seq<OEvent>, k: nat, t: nat) {
    k < |es| && es[k].Launch? && Possible(EMPTY, es[..k]) && |Exec(EMPTY, es[..k]).tasks| == t
  }

  /** Tasks are added at the end, and keep their kind. */
  ghost predicate KindsStay(a: seq<OTask>, b: seq<OTask>) {
    |a| <= |b| && forall i :: 0 <= i < |a| ==> b[i].kind == a[i].kind
  }

  lemma StepKinds(s: OState, e: OEvent)
    requires Enabled(s, e)
    ensures KindsStay(s.tasks, Step(s, e).tasks)
  {
    hide HeldBack;
  }

  lemma {:induction false} RunKinds(s: OState, es: seq<OEvent>)
    requires Possible(s, es)
    ensures KindsStay(s.tasks, Exec(s, es).tasks)
    decreases |es|
  {
    if |es| > 0 {
      StepKinds(s, es[0]);
      RunKinds(Step(s, es[0]), es[1..]);
    }
  }

  lemma KindIsAsLaunched(es: seq<OEvent>, k: nat, t: nat)
    requires Possible(EMPTY, es) && Makes(es, k, t)
    ensures t < |Exec(EMPTY, es).tasks| && Exec(EMPTY, es).tasks[t].kind == es[k].kind
  {
    ExecSplit(EMPTY, es, k);
    var s := Exec(EMPTY, es[..k]);
    assert es[k..][0] == es[k];
    assert Step(s, es[k]).tasks[t].kind == es[k].kind;
    RunKinds(Step(s, es[k]), es[k..][1..]);
  }

  // ---------------------------------------------------------------- the theorems

  /** A task is READY only when every task launched before it is. */
  lemma ReadyInOrder(es: seq<OEvent>, t: nat, u: nat)
    requires Possible(EMPTY, es) && Careful(EMPTY, es) && u < t < |Exec(EMPTY, es).tasks| && IsReady(Exec(EMPTY, es), t)
    ensures IsReady(Exec(EMPTY, es), u)
  {
    RunKeeps(EMPTY, es);
  }

  /** Where the kind changes from one launch to the next, the earlier task has executed before the later is READY. */
  lemma ExecutedBeforeChange(es: seq<OEvent>, j: nat, k: nat, t: nat)
    requires Possible(EMPTY, es) && Careful(EMPTY, es) && t > 0 && Makes(es, j, t - 1) && Makes(es, k, t)
    requires t < |Exec(EMPTY, es).tasks| && IsReady(Exec(EMPTY, es), t) && es[j].kind != es[k].kind
    ensures Exec(EMPTY, es).tasks[t - 1].status.Rank() >= Executed.Rank()
  {
    KindIsAsLaunched(es, j, t - 1);
    KindIsAsLaunched(es, k, t);
    RunKeeps(EMPTY, es);
  }

  /** `pop_front` removes the task being dispatched, whoever dispatches it, and the deque is never empty then. */
  lemma PopsItself(es: seq<OEvent>, t: nat, requiresMet: bool, resources: bool)
    requires Possible(EMPTY, es) && Careful(EMPTY, es) && t < |Exec(EMPTY, es).tasks|
    requires Goes(Exec(EMPTY, es), t, requiresMet, resources)
    ensures CanTry(Exec(EMPTY, es), t, requiresMet, resources) && Exec(EMPTY, es).running[0] == t
  {
    RunKeeps(EMPTY, es);
    GoesIsFront(Exec(EMPTY, es), t, requiresMet, resources);
  }

  /**
    The front, launched by event k, waits for its order in one case only: the launch before it, event j, was of another
    kind, and that task has not executed.
   */
  lemma FrontWaitsOnlyAtAChange(es: seq<OEvent>, j: nat, k: nat, t: nat)
    requires Possible(EMPTY, es) && Careful(EMPTY, es) && |Exec(EMPTY, es).running| > 0
    requires Exec(EMPTY, es).running[0] == t && Makes(es, k, t) && (t > 0 ==> Makes(es, j, t - 1))
    ensures t < |Exec(EMPTY, es).tasks|
    ensures HeldBack(Exec(EMPTY, es), t) <==>
            t > 0 && es[j].kind != es[k].kind && Exec(EMPTY, es).tasks[t - 1].status.Rank() < Executed.Rank()
  {
    RunKeeps(EMPTY, es);
    KindIsAsLaunched(es, k, t);
    if t > 0 { KindIsAsLaunched(es, j, t - 1); }
    hide Exec, Possible, Careful, Makes;
    FrontIsHeld(Exec(EMPTY, es), t);
  }

  lemma FrontIsHeld(s: OState, t: nat)
    requires Inv(s) && |s.running| > 0 && s.running[0] == t
    ensures t < |s.tasks|
    ensures HeldBack(s, t) <==>
            t > 0 && s.tasks[t - 1].kind != s.tasks[t].kind && s.tasks[t - 1].status.Rank() < Executed.Rank()
  {
    assert LinkOk(s, t, s.tasks[t].prev);
    if t > 0 { assert IsReady(s, t - 1); }
  }

  /** No part of a sync. */
  predicate OutsideSync(e: OEvent) {
    !e.Begin? && !e.Forget? && !e.Clear?
  }

  lemma {:induction false} SyncStays(s: OState, es: seq<OEvent>)
    requires Possible(s, es) && forall i :: 0 <= i < |es| ==> OutsideSync(es[i])
    ensures Exec(s, es).sync == s.sync
    decreases |es|
  {
    if |es| > 0 {
      SyncStays(Step(s, es[0]), es[1..]);
    }
  }

  /** A sync that begins waits for the task launched last. */
  lemma BeginsWithTheLast(es: seq<OEvent>)
    requires Possible(EMPTY, es) && Careful(EMPTY, es) && Exec(EMPTY, es).last.Some?
    ensures |Exec(EMPTY, es).tasks| > 0 && Exec(EMPTY, es).last.value == |Exec(EMPTY, es).tasks| - 1
  {
    RunKeeps(EMPTY, es);
    var s := Exec(EMPTY, es);
    assert LinkOk(s, |s.tasks|, s.last);
  }

  /** And goes on waiting for that one. */
  lemma StillWaits(s: OState, es: seq<OEvent>)
    requires Possible(s, es) && |es| > 0 && es[0] == Begin && forall i :: 0 < i < |es| ==> OutsideSync(es[i])
    ensures s.last.Some? && Exec(s, es).sync == Waiting(s.last.value)
  {
    SyncStays(Step(s, es[0]), es[1..]);
  }

  /**
    After a sync has begun it goes on, and forgets last_task_, if and only if the task that was launched last when it
    began is COMPLETED.
   */
  lemma SyncGoesOnIff(es: seq<OEvent>, i: nat)
    requires Possible(EMPTY, es) && Careful(EMPTY, es) && i < |es| && es[i] == Begin
    requires forall k :: i < k < |es| ==> OutsideSync(es[k])
    ensures Possible(EMPTY, es[..i])
    ensures var t := |Exec(EMPTY, es[..i]).tasks| - 1;
            && 0 <= t < |Exec(EMPTY, es).tasks|
            && (Enabled(Exec(EMPTY, es), Forget) <==> Exec(EMPTY, es).tasks[t].status == Completed)
  {
    ExecSplit(EMPTY, es, i);
    RunKinds(Exec(EMPTY, es[..i]), es[i..]);
    hide Exec, Possible, Careful, OutsideSync;
    assert forall k :: 0 <= k < |es[i..]| ==> es[i..][k] == es[i + k];
    StillWaits(Exec(EMPTY, es[..i]), es[i..]);
    BeginsWithTheLast(es[..i]);
    ForgetsCompleted(Exec(EMPTY, es));
  }

  lemma ForgetsCompleted(s: OState)
    requires s.sync.Waiting? && s.sync.task < |s.tasks|
    ensures Enabled(s, Forget) <==> s.tasks[s.sync.task].status == Completed
  {
  }

  // ---------------------------------------------------------------- what sync must not do

  /** What an ordered group promises: see the three theorems above. */
  ghost predicate InOrder(s: OState) {
    && (forall u, t :: 0 <= u < t < |s.tasks| && IsReady(s, t) ==> IsReady(s, u))
    && Handover(s)
    && forall t :: 0 <= t < |s.tasks| && Goes(s, t, true, true) ==> |s.running| > 0 && s.running[0] == t
  }

  lemma KeptInOrder(s: OState)
    requires Inv(s)
    ensures InOrder(s)
  {
    forall t | 0 <= t < |s.tasks| && Goes(s, t, true, true)
      ensures |s.running| > 0 && s.running[0] == t
    {
      GoesIsFront(s, t, true, true);
    }
  }

  /** However the group goes on, as long as nothing is launched during a sync. */
  ghost predicate StaysInOrder(s: OState) {
    forall es :: Possible(s, es) && Apart(s, es) ==> InOrder(Exec(s, es))
  }

  /** Whoever synchronises waits for the last task, or has forgotten it. */
  ghost predicate Synced(s: OState) {
    match s.sync
    case NoSync => true
    case Waiting(t) => s.last == Some(t)
    case Forgotten => s.last == None
  }

  /** The last task has executed when sync has waited for it, and nothing is left in the deque afterwards. */
  lemma SyncedIsCareful(s: OState, e: OEvent)
    requires Inv(s) && Synced(s) && Enabled(s, e) && (e.Launch? ==> s.sync.NoSync?)
    ensures (e.Forget? ==> LastExecuted(s)) && (e.Clear? ==> s.running == []) && Synced(Step(s, e))
  {
    assert LinkOk(s, |s.tasks|, s.last);
    if e.Clear? && |s.tasks| > 0 { assert IsReady(s, |s.tasks| - 1); }
  }

  lemma {:induction false} ApartIsCareful(s: OState, es: seq<OEvent>)
    requires Inv(s) && Synced(s) && Possible(s, es) && Apart(s, es)
    ensures Careful(s, es)
    decreases |es|
  {
    hide Inv, Synced;
    if |es| > 0 {
      SyncedIsCareful(s, es[0]);
      StepKeeps(s, es[0]);
      ApartIsCareful(Step(s, es[0]), es[1..]);
    }
  }

  /** If nobody launches meanwhile, every sync is careful. */
  lemma LaunchesApart(es: seq<OEvent>)
    requires Possible(EMPTY, es) && Apart(EMPTY, es)
    ensures Careful(EMPTY, es)
  {
    ApartIsCareful(EMPTY, es);
  }

  lemma InvStays(s: OState)
    requires Inv(s) && Synced(s)
    ensures StaysInOrder(s)
  {
    hide Inv, Synced, InOrder;
    forall es | Possible(s, es) && Apart(s, es)
      ensures InOrder(Exec(s, es))
    {
      ApartIsCareful(s, es);
      RunKeeps(s, es);
      KeptInOrder(Exec(s, es));
    }
  }

  function Another(kind: Kind): Kind {
    if kind == CpuKernel then GpuKernel else CpuKernel
  }

  /** After its predecessor has been forgotten too early a task of another kind is READY too early. */
  lemma ForgottenTooEarly(s: OState)
    requires CanForget(s) && !LastExecuted(s)
    ensures !StaysInOrder(Step(s, Forget))
  {
    var s1, n := Step(s, Forget), |s.tasks|;
    var kind := Another(s.tasks[n - 1].kind);
    var e1, e2, e3 := Clear, Launch(kind), TryDispatch(n, true, true);
    var s2 := Step(s1, e1);
    var s3 := Step(s2, e2);
    assert s3.tasks[n] == OTask(kind, None, Uninitialized) && s3.running == [n];
    var s4 := Step(s3, e3);
    Three(s1, e1, e2, e3);
    assert IsReady(s4, n) && s4.tasks[n - 1] == s.tasks[n - 1];
    assert !InOrder(s4);
  }

  /** One event and then others. */
  lemma Then(s: OState, e: OEvent, es: seq<OEvent>)
    requires Enabled(s, e) && (e.Launch? ==> s.sync.NoSync?) && Possible(Step(s, e), es) && Apart(Step(s, e), es)
    ensures Possible(s, [e] + es) && Apart(s, [e] + es) && Exec(s, [e] + es) == Exec(Step(s, e), es)
  {
    assert ([e] + es)[1..] == es;
  }

  lemma Three(s: OState, e1: OEvent, e2: OEvent, e3: OEvent)
    requires Enabled(s, e1) && Enabled(Step(s, e1), e2) && Enabled(Step(Step(s, e1), e2), e3)
    requires (e1.Launch? ==> s.sync.NoSync?) && (e2.Launch? ==> Step(s, e1).sync.NoSync?) && !e3.Launch?
    ensures Possible(s, [e1, e2, e3]) && Apart(s, [e1, e2, e3])
    ensures Exec(s, [e1, e2, e3]) == Step(Step(Step(s, e1), e2), e3)
  {
    hide Enabled, Step;
    var s1 := Step(s, e1);
    var s2 := Step(s1, e2);
    Then(s2, e3, []);
    Then(s1, e2, [e3] + []);
    Then(s, e1, [e2] + ([e3] + []));
    assert [e1, e2, e3] == [e1] + ([e2] + ([e3] + []));
  }

  /** A task that was in the deque when it was cleared, behind one that is READY. */
  ghost predicate Dropped(s: OState, k: nat) {
    && k < |s.tasks| && !IsReady(s, k) && s.running == []
    && (s.tasks[k].prev.Some? ==> k > 0 && s.tasks[k].prev.value == k - 1 && IsReady(s, k - 1))
  }

  /** It may go sooner or later, and is not there to be popped. */
  lemma {:induction false} DroppedGoes(s: OState, k: nat) returns (es: seq<OEvent>)
    requires Dropped(s, k)
    ensures Possible(s, es) && Apart(s, es) && !InOrder(Exec(s, es))
    decreases if k > 0 then 4 - s.tasks[k - 1].status.Rank() else 0
  {
    if !HeldBack(s, k) {
      es := [];
      assert Goes(s, k, true, true);
    } else {
      var rest := DroppedGoes(Step(s, Move(k - 1)), k);
      Then(s, Move(k - 1), rest);
      es := [Move(k - 1)] + rest;
    }
  }

  lemma ClearedTooEarly(s: OState)
    requires Inv(s) && s.sync.Forgotten? && s.running != []
    ensures !StaysInOrder(Step(s, Clear))
  {
    var k := ReadyCount(s);
    assert LinkOk(s, k, s.tasks[k].prev);
    if k > 0 { assert IsReady(s, k - 1); }
    var es := DroppedGoes(Step(s, Clear), k);
  }

  /**
    In a run that has been careful so far: after last_task_ has been forgotten the group stays in order, however it
    goes on, if and only if the task launched last had executed.
   */
  lemma ForgetIff(es: seq<OEvent>)
    requires Possible(EMPTY, es) && Careful(EMPTY, es) && CanForget(Exec(EMPTY, es))
    ensures StaysInOrder(Step(Exec(EMPTY, es), Forget)) <==> LastExecuted(Exec(EMPTY, es))
  {
    var s := Exec(EMPTY, es);
    RunKeeps(EMPTY, es);
    hide Inv, StaysInOrder, LastExecuted;
    if LastExecuted(s) {
      ForgetKeeps(s);
      InvStays(Step(s, Forget));
    } else {
      ForgottenTooEarly(s);
    }
  }

  /** And after the deque has been cleared, if and only if there was nothing in it. */
  lemma ClearIff(es: seq<OEvent>)
    requires Possible(EMPTY, es) && Careful(EMPTY, es) && Exec(EMPTY, es).sync.Forgotten?
    ensures StaysInOrder(Step(Exec(EMPTY, es), Clear)) <==> Exec(EMPTY, es).running == []
  {
    var s := Exec(EMPTY, es);
    RunKeeps(EMPTY, es);
    hide Inv, StaysInOrder;
    if s.running == [] {
      ClearKeeps(s);
      InvStays(Step(s, Clear));
    } else {
      ClearedTooEarly(s);
    }
  }

  // ---------------------------------------------------------------- a launch during sync

  function Kernel(prev: Option<nat>, status: Status): OTask {
    OTask(CpuKernel, prev, status)
  }

  /** The first kernel alone, and the first two when the first is COMPLETED. */
  function One(status: Status, running: seq<nat>, sync: Sync): OState {
    OState([Kernel(None, status)], running, Some(0), sync)
  }

  function Two(running: seq<nat>, last: Option<nat>, sync: Sync): OState {
    OState([Kernel(None, Completed), Kernel(Some(0), Uninitialized)], running, last, sync)
  }

  function Last(status: Status, running: seq<nat>): OState {
    OState([Kernel(None, Completed), Kernel(Some(0), Uninitialized), Kernel(None, status)], running, Some(2), NoSync)
  }

  /**
    A kernel is launched and another thread begins to synchronise; while it waits for the first kernel a second one is
    launched, which is taken off the deque; and a third, launched after that, is READY before it.
   */
  function Point(k: nat): OState
    requires k <= 11
  {
    match k
    case 0 => EMPTY
    case 1 => One(Uninitialized, [0], NoSync)
    case 2 => One(Uninitialized, [0], Waiting(0))
    case 3 => One(Ready, [], Waiting(0))
    case 4 => One(Dispatched, [], Waiting(0))
    case 5 => One(Executed, [], Waiting(0))
    case 6 => One(Completed, [], Waiting(0))
    case 7 => Two([1], Some(1), Waiting(0))
    case 8 => Two([1], None, Forgotten)
    case 9 => Two([], None, NoSync)
    case 10 => Last(Uninitialized, [2])
    case _ => Last(Ready, [])
  }

  function Turn(k: nat): OEvent
    requires k < 11
  {
    match k
    case 0 => Launch(CpuKernel)
    case 1 => Begin
    case 2 => TryDispatch(0, true, true)
    case 3 => Move(0)
    case 4 => Move(0)
    case 5 => Move(0)
    case 6 => Launch(CpuKernel)
    case 7 => Forget
    case 8 => Clear
    case 9 => Launch(CpuKernel)
    case _ => TryDispatch(2, true, true)
  }

  lemma EveryTurn(k: nat)
    requires k < 11
    ensures Enabled(Point(k), Turn(k)) && Step(Point(k), Turn(k)) == Point(k + 1)
  {
  }

  lemma {:induction false} ExecAppend(s: OState, es: seq<OEvent>, e: OEvent)
    requires Possible(s, es) && Enabled(Exec(s, es), e)
    ensures Possible(s, es + [e]) && Exec(s, es + [e]) == Step(Exec(s, es), e)
    decreases |es|
  {
    if |es| == 0 {
      assert es + [e] == [e];
    } else {
      assert (es + [e])[1..] == es[1..] + [e];
      ExecAppend(Step(s, es[0]), es[1..], e);
    }
  }

  lemma {:induction false} ToPoint(k: nat) returns (es: seq<OEvent>)
    requires k <= 11
    ensures Possible(EMPTY, es) && Exec(EMPTY, es) == Point(k)
  {
    if k == 0 {
      es := [];
    } else {
      var before := ToPoint(k - 1);
      EveryTurn(k - 1);
      hide Point, Turn, Step, Enabled;
      ExecAppend(EMPTY, before, Turn(k - 1));
      es := before + [Turn(k - 1)];
    }
  }

  /**
    Without that condition the order is lost: a run with a launch during sync leads to a task that may go and is not
    in the deque, which is empty; and a task launched later is READY then while the earlier one is not.
   */
  lemma {:induction false} LaunchDuringSync() returns (es: seq<OEvent>, more: seq<OEvent>)
    ensures Possible(EMPTY, es) && var s := Exec(EMPTY, es); |s.tasks| == 2 && Goes(s, 1, true, true) && s.running == []
    ensures Possible(EMPTY, more)
    ensures var s := Exec(EMPTY, more); |s.tasks| == 3 && IsReady(s, 2) && !IsReady(s, 1)
  {
    es := ToPoint(9);
    more := ToPoint(11);
  }

  // ---------------------------------------------------------------- the group as an object

  class Group {
    var tasks: seq<OTask>
    var running: seq<nat>
    var last: Option<nat>
    ghost var sync: Sync

    ghost function Shared(): OState
      reads this
    {
      OState(tasks, running, last, sync)
    }

    ghost predicate Valid()
      reads this
    {
      Inv(Shared())
    }

    constructor ()
      ensures Valid() && Shared() == EMPTY
    {
      tasks, running, last, sync := [], [], None, NoSync;
    }

    /** `setParams`: at the end of the deque, after the last task. */
    method AddTask(kind: Kind) returns (t: nat)
      requires Valid()
      modifies this
      ensures Valid() && t == |old(tasks)| && Shared() == Step(old(Shared()), Launch(kind))
    {
      LaunchKeeps(Shared(), kind);
      t := |tasks|;
      tasks := tasks + [OTask(kind, last, Uninitialized)];
      running, last := running + [t], Some(t);
    }

    /** The ordered part of `tryDispatchHostCallback`. */
    method TryDispatchOrdered(t: nat, requiresMet: bool, resources: bool) returns (dispatched: bool)
      requires Valid() && t < |tasks|
      modifies this`tasks, this`running
      ensures Valid() && dispatched == Goes(old(Shared()), t, requiresMet, resources)
      ensures CanTry(old(Shared()), t, requiresMet, resources)
      ensures Shared() == DoTry(old(Shared()), t, requiresMet, resources)
      ensures |tasks| == |old(tasks)|
      ensures tasks[t].status == if dispatched then Ready
                                 else if old(tasks[t].status).Rank() >= Ready.Rank() then old(tasks[t].status)
                                 else Initialized
      ensures old(tasks[t].prev).Some? ==> old(tasks[t].prev).value < |old(tasks)|
      ensures var task := old(tasks)[t];
              dispatched <==>
              && task.status.Rank() < Ready.Rank() && requiresMet && resources
              && (task.prev.Some? ==>
                    var prev := old(tasks)[task.prev.value];
                    prev.status.Rank() >= if prev.kind == task.kind then Ready.Rank() else Executed.Rank())
    {
      MayTry(Shared(), t, requiresMet, resources);
      TryKeeps(Shared(), t, requiresMet, resources);
      hide Inv;
      var task := tasks[t];
      dispatched := false;
      if task.status.Rank() >= Ready.Rank() {
        return;
      }
      var shouldTry := requiresMet;
      if task.prev.Some? && shouldTry {
        var prev := tasks[task.prev.value];
        if prev.status.Rank() < Ready.Rank() && prev.kind == task.kind {
          shouldTry := false;
        } else if prev.status.Rank() < Executed.Rank() && prev.kind != task.kind {
          shouldTry := false;
        }
      }
      if shouldTry && !resources {
        shouldTry := false;
      }
      if shouldTry {
        running := running[1..];
        tasks := tasks[t := task.(status := Ready)];
        dispatched := true;
      } else {
        tasks := tasks[t := task.(status := Initialized)];
      }
    }

    /** A launch: the task is added and tried at once, whatever else is in the deque. */
    method LaunchTask(kind: Kind, requiresMet: bool, resources: bool) returns (dispatched: bool)
      requires Valid()
      modifies this
      ensures Valid() && CanTry(Step(old(Shared()), Launch(kind)), |old(tasks)|, requiresMet, resources)
      ensures Shared() == DoTry(Step(old(Shared()), Launch(kind)), |old(tasks)|, requiresMet, resources)
      ensures dispatched ==> old(running) == [] && requiresMet && resources
    {
      hide HeldBack;
      var t := AddTask(kind);
      ghost var s := Shared();
      assert s.running[0] == if old(running) == [] then t else old(running)[0];
      dispatched := TryDispatchOrdered(t, requiresMet, resources);
      if dispatched {
        GoesIsFront(s, t, requiresMet, resources);
      }
    }

    /**
      `doProgress`: try the front as long as that succeeds, given what each attempt finds of requires and
      resources.  The next n tasks in order become READY; the attempt at the one after them, if any, fails.
     */
    method DispatchFronts(found: seq<(bool, bool)>) returns (n: nat)
      requires Valid() && |found| >= |running|
      modifies this`tasks, this`running
      ensures Valid() && n <= |old(running)|
      ensures n == |old(running)| ==> Shared() == Advanced(old(Shared()), n)
      ensures n < |old(running)| ==> Stopped(Advanced(old(Shared()), n), Shared(), found[n].0, found[n].1)
    {
      hide Inv, Goes, DoTry, Advanced;
      n := 0;
      ghost var was := Shared();
      AdvancedNone(was);
      while |running| > 0
        invariant Valid() && n <= |was.running| && Shared() == Advanced(was, n) && |running| == |was.running| - n
        decreases |running|
      {
        FrontIs(Shared());
        ghost var before := Shared();
        var dispatched := TryDispatchOrdered(running[0], found[n].0, found[n].1);
        if !dispatched {
          return;
        }
        AdvancedNext(was, n, found[n].0, found[n].1);
        n := n + 1;
      }
    }
  }

  /** The group once its next n tasks are READY. */
  ghost function Advanced(s: OState, n: nat): OState
    requires n <= |s.running|
  {
    var k := ReadyCount(s);
    s.(tasks := seq(|s.tasks|, t requires 0 <= t < |s.tasks| =>
                      if k <= t < k + n then s.tasks[t].(status := Ready) else s.tasks[t]),
       running := s.running[n..])
  }

  /** The front was tried and did not go. */
  ghost predicate Stopped(s: OState, s': OState, requiresMet: bool, resources: bool) {
    && |s.running| > 0 && s.running[0] < |s.tasks| && !Goes(s, s.running[0], requiresMet, resources)
    && s' == DoTry(s, s.running[0], requiresMet, resources)
  }

  lemma AdvancedNone(s: OState)
    ensures Advanced(s, 0) == s
  {
  }

  lemma AdvancedNext(s: OState, n: nat, requiresMet: bool, resources: bool)
    requires Inv(s) && n < |s.running| && Inv(Advanced(s, n)) && Advanced(s, n).running[0] < |Advanced(s, n).tasks|
    requires Goes(Advanced(s, n), Advanced(s, n).running[0], requiresMet, resources)
    ensures DoTry(Advanced(s, n), Advanced(s, n).running[0], requiresMet, resources) == Advanced(s, n + 1)
    ensures |Advanced(s, n + 1).running| == |s.running| - (n + 1)
  {
  }

  lemma FrontIs(s: OState)
    requires Inv(s)
    ensures |s.running| > 0 ==> s.running[0] == ReadyCount(s) < |s.tasks|
  {
  }
}
