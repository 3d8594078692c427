/**
  A CPU task's grid: as many packets as it has work items, dealt out over the CPU queues, each of which a worker
  processes in order, decrementing the task's signal once a packet (`acquireAqlPacket`, `dispatch`,
  `process_packet`, `get_global_id`).
 */
module Grid {
  import opened Bags
  import opened Bits

  /** The grid's three dimensions. */
  datatype Dims = Dims(x: nat, y: nat, z: nat)

  function Volume(d: Dims): nat {
    d.x * d.y * d.z
  }

  /** A grid with an empty dimension gets one work item. */
  function ThreadCount(d: Dims): nat {
    if Volume(d) == 0 then 1 else Volume(d)
  }

  /** A packet that has been reserved; its work item can run once it has been stored. */
  datatype Packet = Packet(task: nat, tid: nat, stored: bool)

  datatype GState = GState(tasks: seq<Dims>, signal: seq<int>, queues: seq<seq<Packet>>, ran: seq<(nat, nat)>)

  datatype GEvent = Acquire(dims: Dims, cpuQueues: seq<nat>, thisQ: nat) | Store(q: nat, i: nat) | Retire(q: nat)

  // ---------------------------------------------------------------- dealing out

  function IndexOf(ids: seq<nat>, x: nat): nat
    requires x in ids
    ensures IndexOf(ids, x) < |ids| && ids[IndexOf(ids, x)] == x
  {
    if ids[0] == x then 0 else 1 + IndexOf(ids[1..], x)
  }

  /** The order of the queues: for a single work item the task's own queue comes first. */
  function Order(cpuQueues: seq<nat>, thisQ: nat, n: nat): (order: seq<nat>)
    requires thisQ in cpuQueues
    ensures |order| == |cpuQueues|
  {
    if n == 1 then cpuQueues[0 := thisQ][IndexOf(cpuQueues, thisQ) := cpuQueues[0]] else cpuQueues
  }

  predicate QueuesExist(queues: seq<seq<Packet>>, order: seq<nat>) {
    |order| > 0 && forall i :: 0 <= i < |order| ==> order[i] < |queues|
  }

  function QueueFor(order: seq<nat>, tid: nat): nat
    requires |order| > 0
  {
    order[tid % |order|]
  }

  /** Packets 0 to n - 1 of a task, packet tid at the end of queue order[tid % |order|]. */
  function Deal(queues: seq<seq<Packet>>, order: seq<nat>, task: nat, n: nat): (r: seq<seq<Packet>>)
    requires QueuesExist(queues, order)
    ensures |r| == |queues|
  {
    if n == 0 then queues
    else
      var before := Deal(queues, order, task, n - 1);
      var q := QueueFor(order, n - 1);
      before[q := before[q] + [Packet(task, n - 1, false)]]
  }

  // ---------------------------------------------------------------- the steps

  predicate CanAcquire(s: GState, cpuQueues: seq<nat>, thisQ: nat) {
    QueuesExist(s.queues, cpuQueues) && thisQ in cpuQueues
  }

  lemma OrderExists(queues: seq<seq<Packet>>, cpuQueues: seq<nat>, thisQ: nat, n: nat)
    requires QueuesExist(queues, cpuQueues) && thisQ in cpuQueues
    ensures QueuesExist(queues, Order(cpuQueues, thisQ, n))
  {
  }

  function DoAcquire(s: GState, d: Dims, cpuQueues: seq<nat>, thisQ: nat): GState
    requires CanAcquire(s, cpuQueues, thisQ)
  {
    var n := ThreadCount(d);
    OrderExists(s.queues, cpuQueues, thisQ, n);
    GState(s.tasks + [d], s.signal + [n], Deal(s.queues, Order(cpuQueues, thisQ, n), |s.tasks|, n), s.ran)
  }

  predicate CanStore(s: GState, q: nat, i: nat) {
    q < |s.queues| && i < |s.queues[q]|
  }

  function DoStore(s: GState, q: nat, i: nat): GState
    requires CanStore(s, q, i)
  {
    s.(queues := s.queues[q := s.queues[q][i := s.queues[q][i].(stored := true)]])
  }

  predicate CanRetire(s: GState, q: nat) {
    q < |s.queues| && |s.queues[q]| > 0 && s.queues[q][0].stored && s.queues[q][0].task < |s.signal|
  }

  function DoRetire(s: GState, q: nat): GState
    requires CanRetire(s, q)
  {
    var p := s.queues[q][0];
    s.(queues := s.queues[q := s.queues[q][1..]], signal := s.signal[p.task := s.signal[p.task] - 1],
       ran := s.ran + [(p.task, p.tid)])
  }

  ghost predicate Enabled(s: GState, e: GEvent) {
    match e
    case Acquire(d, cpuQueues, thisQ) => CanAcquire(s, cpuQueues, thisQ)
    case Store(q, i) => CanStore(s, q, i)
    case Retire(q) => CanRetire(s, q)
  }

  ghost function Step(s: GState, e: GEvent): GState
    requires Enabled(s, e)
  {
    match e
    case Acquire(d, cpuQueues, thisQ) => DoAcquire(s, d, cpuQueues, thisQ)
    case Store(q, i) => DoStore(s, q, i)
    case Retire(q) => DoRetire(s, q)
  }

  ghost predicate Initial(s: GState) {
    s.tasks == [] && s.signal == [] && s.ran == [] && forall q :: 0 <= q < |s.queues| ==> s.queues[q] == []
  }

  ghost predicate Possible(s: GState, es: seq<GEvent>)
    decreases |es|
  {
    |es| > 0 ==> Enabled(s, es[0]) && Possible(Step(s, es[0]), es[1..])
  }

  ghost function Exec(s: GState, es: seq<GEvent>): GState
    requires Possible(s, es)
    decreases |es|
  {
    if |es| == 0 then s else Exec(Step(s, es[0]), es[1..])
  }

  // ---------------------------------------------------------------- the invariant

  ghost function PairOf(p: Packet): multiset<(nat, nat)> {
    multiset{(p.task, p.tid)}
  }

  ghost function QueuePairs(queue: seq<Packet>): multiset<(nat, nat)> {
    Total(queue, PairOf)
  }

  ghost function Mine(t: nat): Packet -> nat {
    (p: Packet) => if p.task == t then 1 else 0
  }

  ghost function QueueCount(t: nat): seq<Packet> -> nat {
    (queue: seq<Packet>) => Sum(queue, Mine(t))
  }

  /** The packets of task t that have not been retired. */
  ghost function Unretired(s: GState, t: nat): nat {
    Sum(s.queues, QueueCount(t))
  }

  /** All work items, whether they wait on a queue or have run. */
  ghost function AllPairs(s: GState): multiset<(nat, nat)> {
    Total(s.queues, QueuePairs) + multiset(s.ran)
  }

  ghost predicate EachItemOnce(s: GState) {
    forall t: nat, i: nat :: AllPairs(s)[(t, i)] == if t < |s.tasks| && i < ThreadCount(s.tasks[t]) then 1 else 0
  }

  ghost predicate SignalsCount(s: GState) {
    |s.signal| == |s.tasks| && forall t :: 0 <= t < |s.tasks| ==> s.signal[t] == Unretired(s, t)
  }

  /** Only existing tasks have packets. */
  ghost predicate NoStrangers(s: GState) {
    forall t: nat :: t >= |s.tasks| ==> Unretired(s, t) == 0
  }

  ghost predicate Inv(s: GState) {
    EachItemOnce(s) && SignalsCount(s) && NoStrangers(s)
  }

  // ---------------------------------------------------------------- one packet more

  lemma {:induction false} PushPairs(queues: seq<seq<Packet>>, q: nat, p: Packet)
    requires q < |queues|
    ensures Total(queues[q := queues[q] + [p]], QueuePairs) == Total(queues, QueuePairs) + multiset{(p.task, p.tid)}
  {
    TotalAppend(queues[q], p, PairOf);
    TotalGain(queues, q, queues[q] + [p], QueuePairs, multiset{(p.task, p.tid)});
  }

  lemma {:induction false} PushCount(queues: seq<seq<Packet>>, q: nat, p: Packet, t: nat)
    requires q < |queues|
    ensures Sum(queues[q := queues[q] + [p]], QueueCount(t)) ==
            Sum(queues, QueueCount(t)) + if p.task == t then 1 else 0
  {
    SumAppend(queues[q], p, Mine(t));
    SumUpdate(queues, q, queues[q] + [p], QueueCount(t));
  }

  /** The pairs (t, 0) to (t, n - 1). */
  ghost function Items(t: nat, n: nat): multiset<(nat, nat)> {
    if n == 0 then multiset{} else Items(t, n - 1) + multiset{(t, n - 1)}
  }

  lemma {:induction false} ItemsAre(t: nat, n: nat, u: nat, i: nat)
    ensures Items(t, n)[(u, i)] == if u == t && i < n then 1 else 0
    decreases n
  {
    if n > 0 { ItemsAre(t, n - 1, u, i); }
  }

  lemma AddLast<T(!new)>(a: multiset<T>, b: multiset<T>, c: multiset<T>)
    ensures (a + b) + c == a + (b + c) && (a + b) + c == (a + c) + b
  {
  }

  lemma {:induction false} DealNext(queues: seq<seq<Packet>>, order: seq<nat>, t: nat, n: nat)
    requires QueuesExist(queues, order)
    ensures Deal(queues, order, t, 0) == queues
    ensures n > 0 ==>
              var before, q := Deal(queues, order, t, n - 1), QueueFor(order, n - 1);
              q < |before| && Deal(queues, order, t, n) == before[q := before[q] + [Packet(t, n - 1, false)]]
  {
  }

  lemma {:induction false} ItemsNext(t: nat, n: nat)
    ensures Items(t, 0) == multiset{} && (n > 0 ==> Items(t, n) == Items(t, n - 1) + multiset{(t, n - 1)})
  {
  }

  lemma {:induction false} DealPairs(queues: seq<seq<Packet>>, order: seq<nat>, t: nat, n: nat)
    requires QueuesExist(queues, order)
    ensures Total(Deal(queues, order, t, n), QueuePairs) == Total(queues, QueuePairs) + Items(t, n)
  {
    hide QueuePairs, Deal, Items, QueueFor, Total;
    DealNext(queues, order, t, n);
    ItemsNext(t, n);
    if n > 0 {
      DealPairs(queues, order, t, n - 1);
      var before, p := Deal(queues, order, t, n - 1), Packet(t, n - 1, false);
      PushPairs(before, QueueFor(order, n - 1), p);
      AddLast(Total(queues, QueuePairs), Items(t, n - 1), multiset{(p.task, p.tid)});
    }
  }

  lemma {:induction false} DealCount(queues: seq<seq<Packet>>, order: seq<nat>, t: nat, n: nat, u: nat)
    requires QueuesExist(queues, order)
    ensures Sum(Deal(queues, order, t, n), QueueCount(u)) == Sum(queues, QueueCount(u)) + if u == t then n else 0
  {
    hide QueueCount, Deal, QueueFor, Sum;
    DealNext(queues, order, t, n);
    if n > 0 {
      DealCount(queues, order, t, n - 1, u);
      PushCount(Deal(queues, order, t, n - 1), QueueFor(order, n - 1), Packet(t, n - 1, false), u);
    }
  }

  /**
    What queue q is when packets 0 to n - 1 have been dealt over the queues in order: what it was, and behind that, in
    order, each packet tid with order[tid % |order|] == q.
   */
  ghost predicate DealtTo(was: seq<Packet>, now: seq<Packet>, order: seq<nat>, task: nat, n: nat, q: nat)
    requires |order| > 0
  {
    && was <= now
    && (forall j :: |was| <= j < |now| ==>
          now[j] == Packet(task, now[j].tid, false) && now[j].tid < n && order[now[j].tid % |order|] == q)
    && (forall i, j :: |was| <= i < j < |now| ==> now[i].tid < now[j].tid)
    && forall tid: nat {:trigger Packet(task, tid, false)} :: tid < n && order[tid % |order|] == q ==>
         Packet(task, tid, false) in now[|was|..]
  }

  lemma DealtNothing(was: seq<Packet>, order: seq<nat>, task: nat, q: nat)
    requires |order| > 0
    ensures DealtTo(was, was, order, task, 0, q)
  {
  }

  lemma DealtOneMore(was: seq<Packet>, now: seq<Packet>, order: seq<nat>, task: nat, n: nat, q: nat)
    requires |order| > 0 && DealtTo(was, now, order, task, n, q)
    ensures DealtTo(was, if order[n % |order|] == q then now + [Packet(task, n, false)] else now, order, task, n + 1, q)
  {
    var p := Packet(task, n, false);
    if order[n % |order|] == q {
      assert (now + [p])[|was|..] == now[|was|..] + [p];
    }
  }

  /** Each queue gets its packets, in order, and keeps what it had. */
  lemma {:induction false} DealtWhere(queues: seq<seq<Packet>>, order: seq<nat>, task: nat, n: nat, q: nat)
    requires QueuesExist(queues, order) && q < |queues|
    ensures DealtTo(queues[q], Deal(queues, order, task, n)[q], order, task, n, q)
  {
    hide Deal, DealtTo;
    DealNext(queues, order, task, n);
    if n == 0 {
      DealtNothing(queues[q], order, task, q);
    } else {
      DealtWhere(queues, order, task, n - 1, q);
      DealtOneMore(queues[q], Deal(queues, order, task, n - 1)[q], order, task, n - 1, q);
    }
  }

  // ---------------------------------------------------------------- the steps keep the invariant

  lemma {:induction false} AcquirePairs(s: GState, d: Dims, cpuQueues: seq<nat>, thisQ: nat)
    requires CanAcquire(s, cpuQueues, thisQ)
    ensures AllPairs(DoAcquire(s, d, cpuQueues, thisQ)) == AllPairs(s) + Items(|s.tasks|, ThreadCount(d))
  {
    var n := ThreadCount(d);
    OrderExists(s.queues, cpuQueues, thisQ, n);
    hide Deal, Order, QueuePairs, ThreadCount, Items;
    DealPairs(s.queues, Order(cpuQueues, thisQ, n), |s.tasks|, n);
    AddLast(Total(s.queues, QueuePairs), Items(|s.tasks|, n), multiset(s.ran));
  }

  lemma {:induction false} AcquireCount(s: GState, d: Dims, cpuQueues: seq<nat>, thisQ: nat, u: nat)
    requires CanAcquire(s, cpuQueues, thisQ)
    ensures Unretired(DoAcquire(s, d, cpuQueues, thisQ), u) ==
            Unretired(s, u) + if u == |s.tasks| then ThreadCount(d) else 0
  {
    var n := ThreadCount(d);
    OrderExists(s.queues, cpuQueues, thisQ, n);
    hide Deal, Order, QueueCount, ThreadCount;
    DealCount(s.queues, Order(cpuQueues, thisQ, n), |s.tasks|, n, u);
  }

  lemma {:induction false} AcquireKeeps(s: GState, d: Dims, cpuQueues: seq<nat>, thisQ: nat)
    requires Inv(s) && CanAcquire(s, cpuQueues, thisQ)
    ensures Inv(DoAcquire(s, d, cpuQueues, thisQ))
  {
    hide Deal, Order, ThreadCount, AllPairs, Unretired, Items;
    var s' := DoAcquire(s, d, cpuQueues, thisQ);
    AcquirePairs(s, d, cpuQueues, thisQ);
    forall u: nat, i: nat
      ensures AllPairs(s')[(u, i)] == if u < |s'.tasks| && i < ThreadCount(s'.tasks[u]) then 1 else 0
    {
      ItemsAre(|s.tasks|, ThreadCount(d), u, i);
      assert AllPairs(s)[(u, i)] == if u < |s.tasks| && i < ThreadCount(s.tasks[u]) then 1 else 0;
    }
    forall u: nat
      ensures Unretired(s', u) == Unretired(s, u) + if u == |s.tasks| then ThreadCount(d) else 0
    {
      AcquireCount(s, d, cpuQueues, thisQ, u);
    }
  }

  lemma {:induction false} StorePairs(s: GState, q: nat, i: nat)
    requires CanStore(s, q, i)
    ensures AllPairs(DoStore(s, q, i)) == AllPairs(s)
  {
    var s', p := DoStore(s, q, i), s.queues[q][i].(stored := true);
    TotalSame(s.queues[q], i, p, PairOf);
    TotalSame(s.queues, q, s'.queues[q], QueuePairs);
  }

  lemma {:induction false} StoreCount(s: GState, q: nat, i: nat, u: nat)
    requires CanStore(s, q, i)
    ensures Unretired(DoStore(s, q, i), u) == Unretired(s, u)
  {
    var s', p := DoStore(s, q, i), s.queues[q][i].(stored := true);
    SumUpdate(s.queues[q], i, p, Mine(u));
    SumUpdate(s.queues, q, s'.queues[q], QueueCount(u));
  }

  lemma {:induction false} StoreKeeps(s: GState, q: nat, i: nat)
    requires Inv(s) && CanStore(s, q, i)
    ensures Inv(DoStore(s, q, i))
  {
    hide AllPairs, Unretired, ThreadCount;
    StorePairs(s, q, i);
    forall u: nat
      ensures Unretired(DoStore(s, q, i), u) == Unretired(s, u)
    {
      StoreCount(s, q, i, u);
    }
  }

  lemma {:induction false} PopPairs(s: GState, q: nat)
    requires CanRetire(s, q)
    ensures AllPairs(DoRetire(s, q)) == AllPairs(s)
  {
    var s', p := DoRetire(s, q), s.queues[q][0];
    var pair := multiset{(p.task, p.tid)};
    TotalTail(s.queues[q], PairOf);
    assert QueuePairs(s.queues[q]) == QueuePairs(s'.queues[q]) + pair;
    hide QueuePairs;
    TotalGain(s'.queues, q, s.queues[q], QueuePairs, pair);
    assert s'.queues[q := s.queues[q]] == s.queues;
    assert multiset(s'.ran) == multiset(s.ran) + pair;
    AddLast(Total(s'.queues, QueuePairs), pair, multiset(s.ran));
    AddLast(Total(s'.queues, QueuePairs), multiset(s.ran), pair);
  }

  lemma {:induction false} PopCount(s: GState, q: nat, t: nat)
    requires CanRetire(s, q)
    ensures Unretired(s, t) == Unretired(DoRetire(s, q), t) + if s.queues[q][0].task == t then 1 else 0
  {
    SumTail(s.queues[q], Mine(t));
    SumUpdate(s.queues, q, s.queues[q][1..], QueueCount(t));
  }

  lemma {:induction false} RetireKeeps(s: GState, q: nat)
    requires Inv(s) && CanRetire(s, q)
    ensures Inv(DoRetire(s, q))
  {
    hide AllPairs, Unretired, ThreadCount;
    PopPairs(s, q);
    forall t: nat
      ensures Unretired(s, t) == Unretired(DoRetire(s, q), t) + if s.queues[q][0].task == t then 1 else 0
    {
      PopCount(s, q, t);
    }
  }

  lemma {:induction false} StepKeeps(s: GState, e: GEvent)
    requires Inv(s) && Enabled(s, e)
    ensures Inv(Step(s, e))
  {
    hide Inv;
    match e
    case Acquire(d, cpuQueues, thisQ) => AcquireKeeps(s, d, cpuQueues, thisQ);
    case Store(q, i) => StoreKeeps(s, q, i);
    case Retire(q) => RetireKeeps(s, q);
  }

  lemma {:induction false} InitialHolds(s: GState)
    requires Initial(s)
    ensures Inv(s)
  {
    forall t: nat
      ensures Unretired(s, t) == 0
    {
      SumZero(s.queues, QueueCount(t));
    }
    forall t: nat, i: nat
      ensures AllPairs(s)[(t, i)] == 0
    {
      TotalZero(s.queues, (t, i), QueuePairs);
    }
  }

  lemma {:induction false} RunKeeps(s: GState, es: seq<GEvent>)
    requires Inv(s) && Possible(s, es)
    ensures Inv(Exec(s, es))
    decreases |es|
  {
    hide Inv;
    if |es| > 0 {
      StepKeeps(s, es[0]);
      RunKeeps(Step(s, es[0]), es[1..]);
    }
  }

  // ---------------------------------------------------------------- the event that made a task

  lemma {:induction false} ExecSplit(s: GState, es: seq<GEvent>, k: nat)
    requires Possible(s, es) && k <= |es|
    ensures Possible(s, es[..k]) && Possible(Exec(s, es[..k]), es[k..])
    ensures Exec(Exec(s, es[..k]), es[k..]) == Exec(s, es)
    decreases k
  {
    if k == 0 {
      assert es[..0] == [] && es[0..] == es;
    } else {
      assert es[..k][1..] == es[1..][..k - 1] && es[1..][k - 1..] == es[k..];
      ExecSplit(Step(s, es[0]), es[1..], k - 1);
    }
  }

  /** Event k of the run makes task t. */
  ghost predicate Makes(s: GState, es: seq<GEvent>, k: nat, t: nat) {
    k < |es| && es[k].Acquire? && Possible(s, es[..k]) && |Exec(s, es[..k]).tasks| == t
  }

  lemma {:induction false} TasksStay(s: GState, es: seq<GEvent>)
    requires Possible(s, es)
    ensures s.tasks <= Exec(s, es).tasks
    decreases |es|
  {
    if |es| > 0 { TasksStay(Step(s, es[0]), es[1..]); }
  }

  /** A task keeps the grid it was launched with. */
  lemma GridIsAsLaunched(s: GState, es: seq<GEvent>, k: nat, t: nat)
    requires Possible(s, es) && Makes(s, es, k, t)
    ensures t < |Exec(s, es).tasks| && Exec(s, es).tasks[t] == es[k].dims
  {
    ExecSplit(s, es, k);
    var s1 := Exec(s, es[..k]);
    assert es[k..][0] == es[k];
    TasksStay(Step(s1, es[k]), es[k..][1..]);
    assert Step(s1, es[k]).tasks == s1.tasks + [es[k].dims];
  }

  /** And each task was made by some event. */
  lemma {:induction false} MadeBySome(s: GState, es: seq<GEvent>, t: nat) returns (k: nat)
    requires Possible(s, es) && |s.tasks| <= t < |Exec(s, es).tasks|
    ensures Makes(s, es, k, t)
    decreases |es|
  {
    var s1 := Step(s, es[0]);
    if t < |s1.tasks| {
      k := 0;
      assert es[..0] == [];
    } else {
      var j := MadeBySome(s1, es[1..], t);
      k := j + 1;
      assert es[..k][1..] == es[1..][..j] && es[..k][0] == es[0];
    }
  }

  // ---------------------------------------------------------------- the theorems

  /** A task's signal is at every moment the number of its packets that have not been retired. */
  lemma {:induction false} SignalIsUnretired(s: GState, es: seq<GEvent>, t: nat)
    requires Initial(s) && Possible(s, es) && t < |Exec(s, es).tasks|
    ensures t < |Exec(s, es).signal| && Exec(s, es).signal[t] == Unretired(Exec(s, es), t)
  {
    InitialHolds(s);
    RunKeeps(s, es);
  }

  lemma {:induction false} RanAtMostOnce(s: GState, es: seq<GEvent>, t: nat, i: nat)
    requires Initial(s) && Possible(s, es)
    ensures multiset(Exec(s, es).ran)[(t, i)] <=
            if t < |Exec(s, es).tasks| && i < ThreadCount(Exec(s, es).tasks[t]) then 1 else 0
  {
    InitialHolds(s);
    RunKeeps(s, es);
    assert AllPairs(Exec(s, es))[(t, i)] >= multiset(Exec(s, es).ran)[(t, i)];
  }

  /** No work item runs twice, and none that is not in the grid its task was launched with. */
  lemma {:induction false} NothingTwice(s: GState, es: seq<GEvent>, t: nat, i: nat)
    requires Initial(s) && Possible(s, es)
    ensures multiset(Exec(s, es).ran)[(t, i)] <= 1
    ensures (t, i) in Exec(s, es).ran ==>
              exists k: nat :: Makes(s, es, k, t) && (i == 0 || i < es[k].dims.x * es[k].dims.y * es[k].dims.z)
  {
    RanAtMostOnce(s, es, t, i);
    if (t, i) in Exec(s, es).ran {
      assert (t, i) in multiset(Exec(s, es).ran);
      var k := MadeBySome(s, es, t);
      GridIsAsLaunched(s, es, k, t);
    }
  }

  /** In a grid of positive dimensions, what runs has coordinates inside the grid. */
  lemma {:induction false} RunsInside(s: GState, es: seq<GEvent>, k: nat, t: nat, i: nat)
    requires Initial(s) && Possible(s, es) && Makes(s, es, k, t) && (t, i) in Exec(s, es).ran
    requires es[k].dims.x > 0 && es[k].dims.y > 0 && es[k].dims.z > 0
    ensures var d := es[k].dims; var (x, y, z) := GlobalId(d, i);
            i < d.x * d.y * d.z && x < d.x && y < d.y && z < d.z && i == (z * d.x + x) * d.y + y
  {
    RanAtMostOnce(s, es, t, i);
    assert (t, i) in multiset(Exec(s, es).ran);
    GridIsAsLaunched(s, es, k, t);
    hide Exec, Possible, Initial, Makes, GlobalId;
    MulPositive(es[k].dims.x, es[k].dims.y);
    MulPositive(es[k].dims.x * es[k].dims.y, es[k].dims.z);
    FlatOfCoordinates(es[k].dims, i);
  }

  lemma {:induction false} PairsOfQueue(queue: seq<Packet>, t: nat)
    ensures QueueCount(t)(queue) == 0 <==> forall i: nat :: (t, i) !in QueuePairs(queue)
  {
    if |queue| > 0 {
      var last := queue[|queue| - 1];
      PairsOfQueue(queue[..|queue| - 1], t);
      assert QueuePairs(queue) == QueuePairs(queue[..|queue| - 1]) + multiset{(last.task, last.tid)};
      assert last.task == t ==> (t, last.tid) in QueuePairs(queue);
    }
  }

  /** A task has no packets left exactly when none of its work items is on a queue. */
  lemma {:induction false} NoneLeft(queues: seq<seq<Packet>>, t: nat)
    ensures Sum(queues, QueueCount(t)) == 0 <==> forall i: nat :: (t, i) !in Total(queues, QueuePairs)
  {
    SumZero(queues, QueueCount(t));
    if forall q :: 0 <= q < |queues| ==> QueueCount(t)(queues[q]) == 0 {
      forall i: nat
        ensures (t, i) !in Total(queues, QueuePairs)
      {
        forall q | 0 <= q < |queues| ensures (t, i) !in QueuePairs(queues[q]) { PairsOfQueue(queues[q], t); }
        TotalZero(queues, (t, i), QueuePairs);
      }
    } else {
      var q :| 0 <= q < |queues| && QueueCount(t)(queues[q]) != 0;
      PairsOfQueue(queues[q], t);
      var i: nat :| (t, i) in QueuePairs(queues[q]);
      TotalHas(queues, q, QueuePairs);
      assert (t, i) in Total(queues, QueuePairs);
    }
  }

  lemma {:induction false} ZeroIffCounted(s: GState, es: seq<GEvent>, t: nat)
    requires Initial(s) && Possible(s, es) && t < |Exec(s, es).tasks|
    ensures t < |Exec(s, es).signal|
    ensures Exec(s, es).signal[t] == 0 <==>
            forall i: nat :: i < ThreadCount(Exec(s, es).tasks[t]) ==> multiset(Exec(s, es).ran)[(t, i)] == 1
  {
    var s' := Exec(s, es);
    InitialHolds(s);
    RunKeeps(s, es);
    NoneLeft(s'.queues, t);
    hide QueuePairs, QueueCount, ThreadCount, Exec, Possible;
    forall i: nat
      ensures Total(s'.queues, QueuePairs)[(t, i)] + multiset(s'.ran)[(t, i)] ==
              if i < ThreadCount(s'.tasks[t]) then 1 else 0
    {
      assert AllPairs(s')[(t, i)] == if i < ThreadCount(s'.tasks[t]) then 1 else 0;
    }
  }

  /** The signal is 0 exactly when as many work items have run as the task was launched with, each once. */
  lemma {:induction false} ZeroIffAllRan(s: GState, es: seq<GEvent>, k: nat, t: nat)
    requires Initial(s) && Possible(s, es) && Makes(s, es, k, t)
    ensures t < |Exec(s, es).signal|
    ensures var count := es[k].dims.x * es[k].dims.y * es[k].dims.z;
            Exec(s, es).signal[t] == 0 <==>
            forall i: nat :: i < (if count == 0 then 1 else count) ==> multiset(Exec(s, es).ran)[(t, i)] == 1
  {
    GridIsAsLaunched(s, es, k, t);
    ZeroIffCounted(s, es, t);
    hide Exec, Possible, Initial, Makes;
  }

  /** A task with one work item uses the queue chosen for it. */
  lemma SingleItemOnOwnQueue(cpuQueues: seq<nat>, thisQ: nat)
    requires thisQ in cpuQueues
    ensures Order(cpuQueues, thisQ, 1)[0] == thisQ && multiset(Order(cpuQueues, thisQ, 1)) == multiset(cpuQueues)
  {
    var k := IndexOf(cpuQueues, thisQ);
    assert cpuQueues[0 := cpuQueues[k]][k := cpuQueues[0]] == Order(cpuQueues, thisQ, 1);
  }

  /** Where an acquisition puts the packets of several work items, and where it puts a single one. */
  lemma AcquiredWhere(s: GState, d: Dims, cpuQueues: seq<nat>, thisQ: nat)
    requires CanAcquire(s, cpuQueues, thisQ)
    ensures var queues, n := DoAcquire(s, d, cpuQueues, thisQ).queues, d.x * d.y * d.z;
            && |queues| == |s.queues|
            && (n > 1 ==>
                  forall q :: 0 <= q < |queues| ==> DealtTo(s.queues[q], queues[q], cpuQueues, |s.tasks|, n, q))
            && (n <= 1 ==> queues == s.queues[thisQ := s.queues[thisQ] + [Packet(|s.tasks|, 0, false)]])
  {
    var n := ThreadCount(d);
    OrderExists(s.queues, cpuQueues, thisQ, n);
    hide Deal, DealtTo;
    if n > 1 {
      forall q | 0 <= q < |s.queues|
        ensures DealtTo(s.queues[q], Deal(s.queues, cpuQueues, |s.tasks|, n)[q], cpuQueues, |s.tasks|, n, q)
      {
        DealtWhere(s.queues, cpuQueues, |s.tasks|, n, q);
      }
    } else {
      SingleItemOnOwnQueue(cpuQueues, thisQ);
      DealNext(s.queues, Order(cpuQueues, thisQ, 1), |s.tasks|, 1);
      DealNext(s.queues, Order(cpuQueues, thisQ, 1), |s.tasks|, 0);
    }
  }

  // ---------------------------------------------------------------- coordinates

  /** `get_global_id(0)`, `(1)` and `(2)` of the work item with a flat id. */
  function GlobalId(d: Dims, flat: nat): (nat, nat, nat)
    requires d.x > 0 && d.y > 0
  {
    MulPositive(d.x, d.y);
    ((flat / d.y) % d.x, flat % d.y, flat / (d.x * d.y))
  }

  lemma MulPositive(a: nat, b: nat)
    ensures a > 0 && b > 0 ==> a * b > 0
  {
  }

  function FlatId(d: Dims, x: nat, y: nat, z: nat): nat {
    (z * d.x + x) * d.y + y
  }

  lemma MulAssoc(a: nat, b: nat, c: nat)
    ensures (a * b) * c == a * (b * c)
  {
  }

  lemma MulAtMost(a: nat, b: nat, m: nat)
    requires a <= b
    ensures a * m <= b * m
  {
  }

  lemma MulPlus(a: nat, b: nat, m: nat)
    ensures (a + b) * m == a * m + b * m
  {
  }

  lemma DivMod(a: nat, b: nat, m: nat)
    requires m > 0 && b < m
    ensures (a * m + b) / m == a && (a * m + b) % m == b
  {
    DivModUnique(a * m + b, m, a, b);
  }

  /** A row and a place in it. */
  lemma Below(row: nat, place: nat, rows: nat, length: nat)
    requires row < rows && place < length
    ensures row * length + place < rows * length
  {
    MulAtMost(row + 1, rows, length);
    MulPlus(row, 1, length);
  }

  lemma DivDivParts(n: nat, a: nat, b: nat, q: nat, r: nat, p: nat, m: nat)
    requires n == q * b + r && q == p * a + m && r < b && m < a
    ensures a * b > 0 && n / (a * b) == p
  {
    MulPositive(a, b);
    Below(m, r, a, b);
    MulAssoc(p, a, b);
    MulPlus(p * a, m, b);
    DivModUnique(n, a * b, p, m * b + r);
  }

  lemma DivDiv(n: nat, a: nat, b: nat)
    requires a > 0 && b > 0
    ensures a * b > 0 && n / (a * b) == (n / b) / a
  {
    DivDivParts(n, a, b, n / b, n % b, n / b / a, n / b % a);
  }

  /** From a place in the grid to its flat id and back. */
  lemma CoordinatesOfFlat(d: Dims, x: nat, y: nat, z: nat)
    requires x < d.x && y < d.y && z < d.z
    ensures (z * d.x + x) * d.y + y < d.x * d.y * d.z
    ensures GlobalId(d, (z * d.x + x) * d.y + y) == (x, y, z)
  {
    var flat := FlatId(d, x, y, z);
    DivMod(z * d.x + x, y, d.y);
    DivMod(z, x, d.x);
    DivDiv(flat, d.x, d.y);
    InsideVolume(d, x, y, z);
  }

  lemma InsideVolume(d: Dims, x: nat, y: nat, z: nat)
    requires x < d.x && y < d.y && z < d.z
    ensures FlatId(d, x, y, z) < Volume(d)
  {
    Below(z, x, d.z, d.x);
    Below(z * d.x + x, y, d.z * d.x, d.y);
    MulAssoc(d.z, d.x, d.y);
    MulCommutes(d.z, d.x * d.y);
  }

  lemma MulCommutes(a: nat, b: nat)
    ensures a * b == b * a
  {
  }

  /** And from a flat id to a place and back. */
  lemma FlatOfCoordinates(d: Dims, flat: nat)
    requires d.x > 0 && d.y > 0 && flat < d.x * d.y * d.z
    ensures var (x, y, z) := GlobalId(d, flat);
            x < d.x && y < d.y && z < d.z && (z * d.x + x) * d.y + y == flat
  {
    DivDiv(flat, d.x, d.y);
    var row := flat / d.y;
    assert flat == row * d.y + flat % d.y;
    assert row == (row / d.x) * d.x + row % d.x;
    BelowQuotient(flat, d.z, d.x * d.y);
  }

  lemma BelowQuotient(n: nat, q: nat, m: nat)
    requires m > 0 && n < m * q
    ensures n / m < q
  {
    assert (n / m) * m <= n;
    assert (n / m - q) * m < m;
  }

  /** When the signal of a grid of positive dimensions is back at 0, every place of it has been computed once. */
  lemma {:induction false} EveryPlaceOnce(s: GState, es: seq<GEvent>, k: nat, t: nat, x: nat, y: nat, z: nat)
    requires Initial(s) && Possible(s, es) && Makes(s, es, k, t)
    requires t < |Exec(s, es).signal| && Exec(s, es).signal[t] == 0
    requires x < es[k].dims.x && y < es[k].dims.y && z < es[k].dims.z
    ensures var flat := (z * es[k].dims.x + x) * es[k].dims.y + y;
            multiset(Exec(s, es).ran)[(t, flat)] == 1 && GlobalId(es[k].dims, flat) == (x, y, z)
  {
    ZeroIffAllRan(s, es, k, t);
    hide Exec, Possible, Initial, GlobalId;
    CoordinatesOfFlat(es[k].dims, x, y, z);
  }

  /** The task of a packet on a queue has a signal. */
  lemma QueuedHasSignal(s: GState, q: nat)
    requires SignalsCount(s) && NoStrangers(s) && q < |s.queues| && |s.queues[q]| > 0
    ensures s.queues[q][0].task < |s.signal|
  {
    var t := s.queues[q][0].task;
    SumZero(s.queues, QueueCount(t));
    SumTail(s.queues[q], Mine(t));
    assert QueueCount(t)(s.queues[q]) > 0 && Unretired(s, t) > 0;
  }

  // ---------------------------------------------------------------- the loops

  class CpuQueues {
    var tasks: seq<Dims>
    var signal: seq<int>
    var queues: seq<seq<Packet>>
    ghost var ran: seq<(nat, nat)>

    ghost function Shared(): GState
      reads this
    {
      GState(tasks, signal, queues, ran)
    }

    ghost predicate Valid()
      reads this
    {
      Inv(Shared())
    }

    constructor (count: nat)
      ensures Valid() && Initial(Shared()) && |queues| == count
    {
      tasks, signal, queues, ran := [], [], seq(count, _ => []), [];
      new;
      InitialHolds(Shared());
    }

    /** The queues in the order in which the packets are dealt. */
    method QueueOrder(cpuQueues: seq<nat>, thisQ: nat, threadCount: nat) returns (order: seq<nat>)
      requires thisQ in cpuQueues
      ensures order == Order(cpuQueues, thisQ, threadCount)
    {
      order := cpuQueues;
      if threadCount == 1 {
        var q := 0;
        while q < |order| && order[q] != thisQ
          invariant q <= |order| && thisQ !in order[..q] && IndexOf(order, thisQ) == q + IndexOf(order[q..], thisQ)
        {
          assert order[q..][1..] == order[q + 1..];
          q := q + 1;
        }
        var first := order[0];
        order := order[0 := order[q]];
        order := order[q := first];
      }
    }

    /** Each packet its place at the end of a queue. */
    method DealPackets(order: seq<nat>, task: nat, threadCount: nat)
      requires QueuesExist(queues, order)
      modifies this`queues
      ensures queues == Deal(old(queues), order, task, threadCount)
    {
      hide Deal, QueueFor;
      ghost var before := queues;
      DealNext(before, order, task, 0);
      for tid := 0 to threadCount
        invariant queues == Deal(before, order, task, tid)
      {
        DealNext(before, order, task, tid + 1);
        var q := QueueFor(order, tid);
        queues := queues[q := queues[q] + [Packet(task, tid, false)]];
      }
    }

    /** `acquireAqlPacket` of a CPU task: the signal gets the number of packets, then each packet its place. */
    method AcquireAqlPacket(d: Dims, cpuQueues: seq<nat>, thisQ: nat) returns (task: nat)
      requires Valid() && thisQ in cpuQueues && forall i :: 0 <= i < |cpuQueues| ==> cpuQueues[i] < |queues|
      modifies this`tasks, this`signal, this`queues
      ensures CanAcquire(old(Shared()), cpuQueues, thisQ)
      ensures Valid() && task == |old(tasks)| && Shared() == DoAcquire(old(Shared()), d, cpuQueues, thisQ)
      ensures tasks == old(tasks) + [d]
      ensures signal == old(signal) + [if d.x * d.y * d.z == 0 then 1 else d.x * d.y * d.z] && |queues| == |old(queues)|
      ensures d.x * d.y * d.z > 1 ==>
                forall q :: 0 <= q < |queues| ==>
                  DealtTo(old(queues)[q], queues[q], cpuQueues, task, d.x * d.y * d.z, q)
      ensures d.x * d.y * d.z <= 1 ==> queues == old(queues)[thisQ := old(queues)[thisQ] + [Packet(task, 0, false)]]
    {
      AcquiredWhere(Shared(), d, cpuQueues, thisQ);
      assert Volume(d) == d.x * d.y * d.z;
      hide Inv, Order, Deal, Volume, DealtTo;
      AcquireKeeps(Shared(), d, cpuQueues, thisQ);
      var threadCount := Volume(d);
      if threadCount == 0 {
        threadCount := 1;
      }
      OrderExists(queues, cpuQueues, thisQ, threadCount);
      var order := QueueOrder(cpuQueues, thisQ, threadCount);
      task := |tasks|;
      tasks, signal := tasks + [d], signal + [threadCount];
      DealPackets(order, task, threadCount);
    }

    /** One round of the worker's loop: run the work item at the head and decrement its task's signal. */
    method ProcessPacket(q: nat) returns (task: nat, tid: nat)
      requires Valid() && q < |queues| && |queues[q]| > 0 && queues[q][0].stored
      modifies this`signal, this`queues, this`ran
      ensures CanRetire(old(Shared()), q) && Valid() && Shared() == DoRetire(old(Shared()), q)
      ensures (task, tid) == (old(queues[q][0]).task, old(queues[q][0]).tid)
    {
      QueuedHasSignal(Shared(), q);
      RetireKeeps(Shared(), q);
      hide Inv;
      var packet := queues[q][0];
      task, tid := packet.task, packet.tid;
      ran := ran + [(task, tid)];
      signal := signal[task := signal[task] - 1];
      queues := queues[q := queues[q][1..]];
    }
  }
}
