/**
  `lock_set` and `unlock_set`: any number of threads, each of which again and again takes the mutexes of some set
  one by one in ascending order and gives them back in descending order, holding none otherwise.
 */
module LockSet {
  import opened Bags

  /** A thread outside; at mutexes[next] of lock_set; between the calls; or in unlock_set with the first left held. */
  datatype Thread =
    | Outside
    | Locking(mutexes: seq<nat>, next: nat)
    | Inside(mutexes: seq<nat>)
    | Unlocking(mutexes: seq<nat>, left: nat)

  /** Who holds which mutex. */
  datatype LState = LState(threads: seq<Thread>, owner: map<nat, nat>)

  datatype LEvent = Call(thread: nat, mutexes: seq<nat>) | Lock(thread: nat) | Return(thread: nat)
                  | Leave(thread: nat) | Unlock(thread: nat) | Finish(thread: nat)

  /** The order in which a std::set of pointers is iterated. */
  predicate Ascending(ids: seq<nat>) {
    forall i, j :: 0 <= i < j < |ids| ==> ids[i] < ids[j]
  }

  predicate Enabled(s: LState, e: LEvent) {
    && e.thread < |s.threads| && var t := s.threads[e.thread];
    match e
    case Call(_, mutexes) => t.Outside? && Ascending(mutexes)
    case Lock(_) => t.Locking? && t.next < |t.mutexes| && t.mutexes[t.next] !in s.owner
    case Return(_) => t.Locking? && t.next == |t.mutexes|
    case Leave(_) => t.Inside?
    case Unlock(_) => t.Unlocking? && 0 < t.left <= |t.mutexes|
    case Finish(_) => t.Unlocking? && t.left == 0
  }

  function Step(s: LState, e: LEvent): LState
    requires Enabled(s, e)
  {
    var t, i := s.threads[e.thread], e.thread;
    match e
    case Call(_, mutexes) => s.(threads := s.threads[i := Locking(mutexes, 0)])
    case Lock(_) => LState(s.threads[i := Locking(t.mutexes, t.next + 1)], s.owner[t.mutexes[t.next] := i])
    case Return(_) => s.(threads := s.threads[i := Inside(t.mutexes)])
    case Leave(_) => s.(threads := s.threads[i := Unlocking(t.mutexes, |t.mutexes|)])
    case Unlock(_) => LState(s.threads[i := Unlocking(t.mutexes, t.left - 1)], s.owner - {t.mutexes[t.left - 1]})
    case Finish(_) => s.(threads := s.threads[i := Outside])
  }

  ghost predicate Initial(s: LState) {
    s.owner == map[] && forall i :: 0 <= i < |s.threads| ==> s.threads[i] == Outside
  }

  ghost predicate Possible(s: LState, es: seq<LEvent>)
    decreases |es|
  {
    |es| > 0 ==> Enabled(s, es[0]) && Possible(Step(s, es[0]), es[1..])
  }

  ghost function Exec(s: LState, es: seq<LEvent>): LState
    requires Possible(s, es)
    decreases |es|
  {
    if |es| == 0 then s else Exec(Step(s, es[0]), es[1..])
  }

  // ---------------------------------------------------------------- the invariant

  /** What a thread holds, in ascending order. */
  function Held(t: Thread): seq<nat> {
    match t
    case Outside => []
    case Locking(mutexes, next) => if next <= |mutexes| then mutexes[..next] else []
    case Inside(mutexes) => mutexes
    case Unlocking(mutexes, left) => if left <= |mutexes| then mutexes[..left] else []
  }

  ghost predicate ThreadOk(t: Thread) {
    match t
    case Outside => true
    case Locking(mutexes, next) => Ascending(mutexes) && next <= |mutexes|
    case Inside(mutexes) => Ascending(mutexes)
    case Unlocking(mutexes, left) => Ascending(mutexes) && left <= |mutexes|
  }

  /** The owner of a mutex is the one thread that holds it. */
  ghost predicate OwnersOk(s: LState) {
    && (forall m :: m in s.owner ==> s.owner[m] < |s.threads| && m in Held(s.threads[s.owner[m]]))
    && forall i, k :: 0 <= i < |s.threads| && 0 <= k < |Held(s.threads[i])| ==>
         Held(s.threads[i])[k] in s.owner && s.owner[Held(s.threads[i])[k]] == i
  }

  ghost predicate Inv(s: LState) {
    (forall i :: 0 <= i < |s.threads| ==> ThreadOk(s.threads[i])) && OwnersOk(s)
  }

  lemma SameHeldKeeps(s: LState, i: nat, t: Thread)
    requires Inv(s) && i < |s.threads| && ThreadOk(t) && Held(t) == Held(s.threads[i])
    ensures Inv(s.(threads := s.threads[i := t]))
  {
    hide ThreadOk, Held;
    var s' := s.(threads := s.threads[i := t]);
    forall j, k | 0 <= j < |s'.threads| && 0 <= k < |Held(s'.threads[j])|
      ensures Held(s'.threads[j])[k] in s'.owner && s'.owner[Held(s'.threads[j])[k]] == j
    {
      assert Held(s'.threads[j]) == Held(s.threads[j]);
    }
  }

  lemma {:induction false} LockKeeps(s: LState, i: nat)
    requires Inv(s) && Enabled(s, Lock(i))
    ensures Inv(Step(s, Lock(i)))
  {
    var s', t := Step(s, Lock(i)), s.threads[i];
    var m := t.mutexes[t.next];
    assert ThreadOk(t);
    assert Held(s'.threads[i]) == Held(t) + [m];
    hide ThreadOk, Held;
    forall j, k | 0 <= j < |s'.threads| && 0 <= k < |Held(s'.threads[j])|
      ensures Held(s'.threads[j])[k] in s'.owner && s'.owner[Held(s'.threads[j])[k]] == j
    {
      if j != i || k < |Held(t)| {
        assert Held(s'.threads[j])[k] == Held(s.threads[j])[k];
      }
    }
  }

  lemma LastHeld(t: Thread)
    requires ThreadOk(t) && t.Unlocking? && 0 < t.left
    ensures Held(t) == Held(Unlocking(t.mutexes, t.left - 1)) + [t.mutexes[t.left - 1]]
    ensures t.mutexes[t.left - 1] !in Held(Unlocking(t.mutexes, t.left - 1))
  {
  }

  /** Thread i gives back its last mutex. */
  lemma ReleaseKeeps(s: LState, s': LState, i: nat, m: nat)
    requires OwnersOk(s) && i < |s.threads| == |s'.threads| && s'.threads == s.threads[i := s'.threads[i]]
    requires Held(s.threads[i]) == Held(s'.threads[i]) + [m] && m !in Held(s'.threads[i]) && s'.owner == s.owner - {m}
    ensures OwnersOk(s')
  {
    hide Held;
    var held := Held(s.threads[i]);
    assert held[|held| - 1] == m;
    forall x | x in s'.owner
      ensures s'.owner[x] < |s'.threads| && x in Held(s'.threads[s'.owner[x]])
    {
      assert x in Held(s.threads[s.owner[x]]);
    }
    forall j, k | 0 <= j < |s'.threads| && 0 <= k < |Held(s'.threads[j])|
      ensures Held(s'.threads[j])[k] in s'.owner && s'.owner[Held(s'.threads[j])[k]] == j
    {
      assert Held(s'.threads[j])[k] == Held(s.threads[j])[k];
    }
  }

  lemma UnlockKeeps(s: LState, i: nat)
    requires Inv(s) && Enabled(s, Unlock(i))
    ensures Inv(Step(s, Unlock(i)))
  {
    hide OwnersOk;
    var s', t := Step(s, Unlock(i)), s.threads[i];
    assert ThreadOk(t);
    LastHeld(t);
    ReleaseKeeps(s, s', i, t.mutexes[t.left - 1]);
  }

  lemma StepKeeps(s: LState, e: LEvent)
    requires Inv(s) && Enabled(s, e)
    ensures Inv(Step(s, e))
  {
    var t := s.threads[e.thread];
    assert ThreadOk(t);
    match e
    case Call(i, mutexes) => SameHeldKeeps(s, i, Locking(mutexes, 0));
    case Lock(i) => LockKeeps(s, i);
    case Return(i) =>
      assert t.mutexes[..t.next] == t.mutexes;
      SameHeldKeeps(s, i, Inside(t.mutexes));
    case Leave(i) =>
      assert t.mutexes[..|t.mutexes|] == t.mutexes;
      SameHeldKeeps(s, i, Unlocking(t.mutexes, |t.mutexes|));
    case Unlock(i) => UnlockKeeps(s, i);
    case Finish(i) => SameHeldKeeps(s, i, Outside);
  }

  lemma InitialHolds(s: LState)
    requires Initial(s)
    ensures Inv(s)
  {
  }

  lemma {:induction false} RunKeeps(s: LState, es: seq<LEvent>)
    requires Inv(s) && Possible(s, es)
    ensures Inv(Exec(s, es)) && |Exec(s, es).threads| == |s.threads|
    decreases |es|
  {
    hide Inv;
    if |es| > 0 {
      StepKeeps(s, es[0]);
      RunKeeps(Step(s, es[0]), es[1..]);
    }
  }

  // ---------------------------------------------------------------- mutual exclusion

  /** No mutex is held by two threads. */
  lemma {:induction false} MutualExclusion(s: LState, es: seq<LEvent>, i: nat, j: nat, m: nat)
    requires Initial(s) && Possible(s, es) && i < |Exec(s, es).threads| && j < |Exec(s, es).threads|
    requires m in Held(Exec(s, es).threads[i]) && m in Held(Exec(s, es).threads[j])
    ensures i == j
  {
    InitialHolds(s);
    RunKeeps(s, es);
    HeldOnce(Exec(s, es), i, j, m);
  }

  lemma HeldOnce(s: LState, i: nat, j: nat, m: nat)
    requires OwnersOk(s) && i < |s.threads| && j < |s.threads| && m in Held(s.threads[i]) && m in Held(s.threads[j])
    ensures i == j
  {
    var a :| 0 <= a < |Held(s.threads[i])| && Held(s.threads[i])[a] == m;
    var b :| 0 <= b < |Held(s.threads[j])| && Held(s.threads[j])[b] == m;
  }

  // ---------------------------------------------------------------- what a thread between the calls owns

  lemma {:induction false} ExecSplit(s: LState, es: seq<LEvent>, k: nat)
    requires Possible(s, es) && k <= |es|
    ensures Possible(s, es[..k]) && Possible(Exec(s, es[..k]), es[k..])
    ensures Exec(Exec(s, es[..k]), es[k..]) == Exec(s, es)
    decreases k
  {
    if k == 0 {
      assert es[..0] == [] && es[0..] == es;
    } else {
      assert es[..k][1..] == es[1..][..k - 1] && es[1..][k - 1..] == es[k..];
      ExecSplit(Step(s, es[0]), es[1..], k - 1);
    }
  }

  /** Thread i is outside, or works on the set given. */
  predicate WorksOn(s: LState, i: nat, mutexes: seq<nat>) {
    i < |s.threads| && (s.threads[i].Outside? || s.threads[i].mutexes == mutexes)
  }

  lemma {:induction false} StillWorksOn(s: LState, es: seq<LEvent>, i: nat, mutexes: seq<nat>)
    requires Possible(s, es) && WorksOn(s, i, mutexes)
    requires forall j :: 0 <= j < |es| && es[j].Call? ==> es[j].thread != i
    ensures WorksOn(Exec(s, es), i, mutexes)
    decreases |es|
  {
    if |es| > 0 {
      StillWorksOn(Step(s, es[0]), es[1..], i, mutexes);
    }
  }

  /** Event k is the last call of thread i, with these mutexes. */
  ghost predicate LastCall(es: seq<LEvent>, k: nat, i: nat, mutexes: seq<nat>) {
    k < |es| && es[k] == Call(i, mutexes) && forall j :: k < j < |es| && es[j].Call? ==> es[j].thread != i
  }

  lemma WorksOnLastCall(s: LState, es: seq<LEvent>, k: nat, i: nat, mutexes: seq<nat>)
    requires Possible(s, es) && LastCall(es, k, i, mutexes)
    ensures WorksOn(Exec(s, es), i, mutexes)
  {
    ExecSplit(s, es, k);
    var s1, rest := Exec(s, es[..k]), es[k..];
    assert rest[0] == es[k];
    assert forall j :: 0 <= j < |rest[1..]| ==> rest[1..][j] == es[k + 1 + j];
    StillWorksOn(Step(s1, es[k]), rest[1..], i, mutexes);
  }

  /** Between the calls a thread owns exactly the mutexes that it called lock_set with; outside it owns none. */
  lemma OwnsItsSet(s: LState, es: seq<LEvent>, k: nat, i: nat, mutexes: seq<nat>, m: nat)
    requires Initial(s) && Possible(s, es) && LastCall(es, k, i, mutexes)
    ensures i < |Exec(s, es).threads|
    ensures var s' := Exec(s, es);
            && (s'.threads[i].Inside? ==> (m in s'.owner && s'.owner[m] == i <==> m in mutexes))
            && (s'.threads[i].Outside? ==> !(m in s'.owner && s'.owner[m] == i))
  {
    WorksOnLastCall(s, es, k, i, mutexes);
    InitialHolds(s);
    RunKeeps(s, es);
    hide Exec, Possible, Initial, LastCall;
    OwnedIsHeld(Exec(s, es), i, m);
  }

  lemma OwnedIsHeld(s: LState, i: nat, m: nat)
    requires OwnersOk(s) && i < |s.threads|
    ensures m in s.owner && s.owner[m] == i <==> m in Held(s.threads[i])
  {
    hide Held;
    if m in Held(s.threads[i]) {
      var a :| 0 <= a < |Held(s.threads[i])| && Held(s.threads[i])[a] == m;
    }
  }

  // ---------------------------------------------------------------- deadlock freedom

  /** A thread in lock_set before a mutex that is taken. */
  predicate Blocked(s: LState, i: nat) {
    && i < |s.threads| && s.threads[i].Locking? && s.threads[i].next < |s.threads[i].mutexes|
    && s.threads[i].mutexes[s.threads[i].next] in s.owner
  }

  function Wanted(s: LState, i: nat): nat
    requires Blocked(s, i)
  {
    s.threads[i].mutexes[s.threads[i].next]
  }

  /** A thread that is inside and not blocked has a step to take. */
  function NextStep(s: LState, i: nat): LEvent
    requires i < |s.threads|
  {
    match s.threads[i]
    case Outside => Finish(i)
    case Locking(mutexes, next) => if next < |mutexes| then Lock(i) else Return(i)
    case Inside(_) => Leave(i)
    case Unlocking(_, left) => if left > 0 then Unlock(i) else Finish(i)
  }

  lemma UnblockedSteps(s: LState, i: nat)
    requires Inv(s) && i < |s.threads| && !s.threads[i].Outside? && !Blocked(s, i)
    ensures Enabled(s, NextStep(s, i))
  {
    assert ThreadOk(s.threads[i]);
  }

  /** Whoever holds what a blocked thread wants is free to go on, or blocked at a greater mutex. */
  lemma HolderWantsMore(s: LState, i: nat)
    requires Inv(s) && Blocked(s, i)
    ensures var j := s.owner[Wanted(s, i)];
            j < |s.threads| && !s.threads[j].Outside? && (Blocked(s, j) ==> Wanted(s, j) > Wanted(s, i))
  {
    var m := Wanted(s, i);
    var j := s.owner[m];
    assert ThreadOk(s.threads[j]);
    assert m in Held(s.threads[j]);
    var k :| 0 <= k < |Held(s.threads[j])| && Held(s.threads[j])[k] == m;
  }

  /** Following the holders, upwards in the order of the mutexes, leads to a thread that is not blocked. */
  lemma {:induction false} FreeThread(s: LState, i: nat, bound: nat) returns (j: nat)
    requires Inv(s) && i < |s.threads| && !s.threads[i].Outside?
    requires forall m :: m in s.owner ==> m <= bound
    requires Blocked(s, i) ==> Wanted(s, i) <= bound
    ensures j < |s.threads| && !s.threads[j].Outside? && !Blocked(s, j)
    decreases if Blocked(s, i) then bound - Wanted(s, i) + 1 else 0
  {
    hide Inv;
    if Blocked(s, i) {
      HolderWantsMore(s, i);
      j := FreeThread(s, s.owner[Wanted(s, i)], bound);
    } else {
      j := i;
    }
  }

  lemma {:induction false} Bound(ids: set<nat>) returns (bound: nat)
    ensures forall m :: m in ids ==> m <= bound
    decreases |ids|
  {
    if ids == {} {
      bound := 0;
    } else {
      var x :| x in ids;
      var rest := Bound(ids - {x});
      bound := if x > rest then x else rest;
      assert ids == ids - {x} + {x};
    }
  }

  /** As long as a thread is in or between lock_set and unlock_set, some such thread can take its next step. */
  lemma {:induction false} NoDeadlock(s: LState, es: seq<LEvent>, i: nat) returns (j: nat)
    requires Initial(s) && Possible(s, es) && i < |Exec(s, es).threads| && !Exec(s, es).threads[i].Outside?
    ensures j < |Exec(s, es).threads| && !Exec(s, es).threads[j].Outside?
    ensures Enabled(Exec(s, es), NextStep(Exec(s, es), j))
  {
    InitialHolds(s);
    RunKeeps(s, es);
    hide Inv;
    j := SomeThreadSteps(Exec(s, es), i);
  }

  lemma {:induction false} SomeThreadSteps(s: LState, i: nat) returns (j: nat)
    requires Inv(s) && i < |s.threads| && !s.threads[i].Outside?
    ensures j < |s.threads| && !s.threads[j].Outside? && Enabled(s, NextStep(s, j))
  {
    hide Inv;
    var bound := Bound(s.owner.Keys);
    j := FreeThread(s, i, bound);
    UnblockedSteps(s, j);
  }

  /** Whoever is outside can call lock_set with any set, however many mutexes it has. */
  lemma AnyCall(s: LState, i: nat, mutexes: seq<nat>)
    requires i < |s.threads| && s.threads[i].Outside?
    requires forall j, k :: 0 <= j < k < |mutexes| ==> mutexes[j] < mutexes[k]
    ensures Enabled(s, Call(i, mutexes))
  {
  }

  // ---------------------------------------------------------------- and everybody gets through

  /** The steps a thread has to take until it is outside. */
  function StepsLeft(t: Thread): nat {
    match t
    case Outside => 0
    case Locking(mutexes, next) => |mutexes| + 3 + if next <= |mutexes| then |mutexes| - next else 0
    case Inside(mutexes) => |mutexes| + 2
    case Unlocking(mutexes, left) => left + 1
  }

  ghost function Left(s: LState): nat {
    Sum(s.threads, StepsLeft)
  }

  /** Each step but a new call brings all threads together nearer to the outside. */
  lemma StepDecreases(s: LState, e: LEvent)
    requires Inv(s) && Enabled(s, e) && !e.Call?
    ensures Left(Step(s, e)) == Left(s) - 1
  {
    assert ThreadOk(s.threads[e.thread]);
    SumUpdate(s.threads, e.thread, Step(s, e).threads[e.thread], StepsLeft);
  }

  ghost predicate AllOutside(s: LState) {
    forall i :: 0 <= i < |s.threads| ==> s.threads[i].Outside?
  }

  /** Nothing is possible but a new call. */
  ghost predicate CallsOnly(s: LState) {
    forall e :: Enabled(s, e) ==> e.Call?
  }

  /**
    From every reachable state, a run without new calls is bounded, and one that cannot go on without a new call has
    completed all calls, whatever the order of its steps was.
   */
  lemma {:induction false} EverybodyGetsThrough(s: LState, es: seq<LEvent>, more: seq<LEvent>)
    requires Initial(s) && Possible(s, es) && Possible(Exec(s, es), more)
    requires forall k :: 0 <= k < |more| ==> !more[k].Call?
    ensures |more| <= Left(Exec(s, es))
    ensures CallsOnly(Exec(Exec(s, es), more)) <==> AllOutside(Exec(Exec(s, es), more))
  {
    InitialHolds(s);
    RunKeeps(s, es);
    RunKeeps(Exec(s, es), more);
    hide Inv, CallsOnly, AllOutside;
    Drains(Exec(s, es), more);
    CallsOnlyOutside(Exec(Exec(s, es), more));
  }

  lemma {:induction false} CallsOnlyOutside(s: LState)
    requires Inv(s)
    ensures CallsOnly(s) <==> AllOutside(s)
  {
    hide Inv;
    if !AllOutside(s) {
      var i :| 0 <= i < |s.threads| && !s.threads[i].Outside?;
      var j := SomeThreadSteps(s, i);
      assert !NextStep(s, j).Call?;
    }
  }

  lemma {:induction false} Drains(s: LState, more: seq<LEvent>)
    requires Inv(s) && Possible(s, more) && forall k :: 0 <= k < |more| ==> !more[k].Call?
    ensures |more| <= Left(s)
    decreases |more|
  {
    if |more| > 0 {
      StepKeeps(s, more[0]);
      StepDecreases(s, more[0]);
      Drains(Step(s, more[0]), more[1..]);
    }
  }

  // ---------------------------------------------------------------- the loops

  class Mutexes {
    var owner: map<nat, nat>

    constructor ()
      ensures owner == map[]
    {
      owner := map[];
    }

    /** `lock_set` for a thread, until it is through or before a mutex that somebody holds. */
    method LockAll(thread: nat, mutexes: seq<nat>) returns (taken: nat)
      requires Ascending(mutexes)
      modifies this
      ensures taken <= |mutexes| && owner == WithOwner(old(owner), mutexes[..taken], thread)
      ensures forall k :: 0 <= k < taken ==> mutexes[k] !in old(owner)
      ensures taken < |mutexes| ==> mutexes[taken] in old(owner)
    {
      hide WithOwner, Members, Ascending;
      taken := 0;
      NoneYet(owner, thread);
      assert mutexes[..0] == [];
      while taken < |mutexes| && mutexes[taken] !in owner
        invariant taken <= |mutexes| && owner == WithOwner(old(owner), mutexes[..taken], thread)
        invariant forall k :: 0 <= k < taken ==> mutexes[k] !in old(owner)
      {
        assert mutexes[..taken + 1] == mutexes[..taken] + [mutexes[taken]];
        OneMore(old(owner), mutexes[..taken], mutexes[taken], thread);
        owner := owner[mutexes[taken] := thread];
        taken := taken + 1;
      }
      if taken < |mutexes| {
        NotTakenNow(old(owner), mutexes, taken, thread);
      }
    }

    /** `unlock_set`, from the last to the first. */
    method UnlockAll(mutexes: seq<nat>)
      requires Ascending(mutexes)
      modifies this
      ensures owner == old(owner) - Members(mutexes)
    {
      var left := |mutexes|;
      while left > 0
        invariant 0 <= left <= |mutexes| && owner == old(owner) - Members(mutexes[left..])
      {
        left := left - 1;
        assert mutexes[left..] == [mutexes[left]] + mutexes[left + 1..];
        owner := owner - {mutexes[left]};
      }
      assert mutexes[0..] == mutexes;
    }
  }

  function Members(ids: seq<nat>): set<nat> {
    set m | m in ids
  }

  function WithOwner(owner: map<nat, nat>, ids: seq<nat>, thread: nat): map<nat, nat> {
    owner + map m | m in Members(ids) :: thread
  }

  lemma NoneYet(owner: map<nat, nat>, thread: nat)
    ensures WithOwner(owner, [], thread) == owner
  {
  }

  lemma {:induction false} OneMore(owner: map<nat, nat>, ids: seq<nat>, m: nat, thread: nat)
    requires m !in WithOwner(owner, ids, thread)
    ensures m !in owner && WithOwner(owner, ids + [m], thread) == WithOwner(owner, ids, thread)[m := thread]
  {
  }

  lemma NotTakenNow(owner: map<nat, nat>, ids: seq<nat>, n: nat, thread: nat)
    requires Ascending(ids) && n < |ids| && ids[n] in WithOwner(owner, ids[..n], thread)
    ensures ids[n] in owner
  {
  }
}
