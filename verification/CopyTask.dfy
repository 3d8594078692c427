/**
  One asynchronous copy in callback mode (`DataTaskImpl::acquireAqlPacket`, `dispatch`): two look-ups of its
  buffers, a signal, an SDMA engine, and for a copy between a device and unregistered host memory a thread that
  stages the bytes in a temporary buffer.
 */
module CopyTask {
  import opened Wrappers
  import opened PointerTracker

  type byte = bv8

  datatype Direction = H2H | D2H | H2D | D2D

  /** The buffers' places: registered in CPU memory, on a device, or not registered. */
  function Classify(src: Option<nat>, dest: Option<nat>, cpu: set<nat>): Direction {
    var isSrcHost := src.None? || src.value in cpu;
    var isDestHost := dest.None? || dest.value in cpu;
    if isSrcHost && isDestHost then H2H
    else if src.Some? && dest.None? then D2H
    else if src.None? && dest.Some? then H2D
    else D2D
  }

  predicate IsStaged(d: Direction) {
    d == H2D || d == D2H
  }

  /** How far the copy has come; from Malloced to Freed it is the staging thread's position. */
  datatype Phase =
    | Created | Acquired
    | Marked
    | Spawned | Malloced | Filled | Submitted | Announced | Woken | Emptied | Freed
    | Done

  /** A command the SDMA engine has not carried out. */
  datatype Command = Nothing | SrcToDest | SrcToTemp | TempToDest

  /** `cpu` holds the buffers in CPU memory; `dispatched` says that state_ has been set to DISPATCHED. */
  datatype Copy = Copy(
    tree: Tree, cpu: set<nat>, srcPtr: nat, destPtr: nat, src: seq<byte>, dest: seq<byte>, temp: seq<byte>,
    signal: int, phase: Phase, direction: Direction, command: Command, dispatched: bool)

  /** Somebody else's allocation or free; the launch; dispatch(); the thread's steps; the engine's completion. */
  datatype CopyEvent =
    | Track(op: Op) | Acquire | Mark | Submit | Spawn
    | Malloc(garbage: seq<byte>) | Fill | SubmitStaged | Announce | Wake | Empty | Free | Subtract
    | EngineDone

  function DirectionNow(s: Copy): Direction {
    Classify(FindIn(s.tree, s.srcPtr), FindIn(s.tree, s.destPtr), s.cpu)
  }

  /** The operation leaves alone the memory at p: it neither removes its buffer nor puts one there. */
  ghost predicate Spares(t: Tree, op: Op, p: nat) {
    match op
    case Insert(q, size, _) => size > 0 && !Inside(p, RangeOf(q, size))
    case Remove(q) => !SameEntry(t, q, p)
  }

  ghost predicate Enabled(s: Copy, e: CopyEvent) {
    match e
    case Track(op) => Spares(s.tree, op, s.srcPtr) && Spares(s.tree, op, s.destPtr)
    case Acquire => s.phase == Created
    case Mark => s.phase == Acquired && !IsStaged(DirectionNow(s))
    case Submit => s.phase == Marked
    case Spawn => s.phase == Acquired && IsStaged(DirectionNow(s))
    case Malloc(garbage) => s.phase == Spawned && |garbage| == |s.src|
    case Fill => s.phase == Malloced
    case SubmitStaged => s.phase == Filled
    case Announce => s.phase == Submitted
    case Wake => s.phase == Announced && s.signal == 1
    case Empty => s.phase == Woken
    case Free => s.phase == Emptied
    case Subtract => s.phase == Freed
    case EngineDone => s.command != Nothing
  }

  function Apply(t: Tree, op: Op): Tree
    requires PointerTracker.NonEmpty(op)
  {
    PointerTracker.Apply(t, op)
  }

  /** What the engine does with a command: the bytes, and then one decrement. */
  function Carry(s: Copy): Copy {
    var s' := s.(command := Nothing, signal := s.signal - 1);
    match s.command
    case Nothing => s
    case SrcToDest => s'.(dest := s.src)
    case SrcToTemp => s'.(temp := s.src)
    case TempToDest => s'.(dest := s.temp)
  }

  ghost function Step(s: Copy, e: CopyEvent): Copy
    requires Enabled(s, e)
  {
    match e
    case Track(op) => s.(tree := Apply(s.tree, op))
    case Acquire => s.(phase := Acquired, signal := s.signal + if IsStaged(DirectionNow(s)) then 2 else 1)
    case Mark => s.(phase := Marked, direction := DirectionNow(s), dispatched := true)
    case Submit => s.(phase := Done, command := SrcToDest)
    case Spawn => s.(phase := Spawned, direction := DirectionNow(s))
    case Malloc(garbage) => s.(phase := Malloced, temp := garbage)
    case Fill => s.(phase := Filled, temp := if s.direction == H2D then s.src else s.temp)
    case SubmitStaged => s.(phase := Submitted, command := if s.direction == H2D then TempToDest else SrcToTemp)
    case Announce => s.(phase := Announced, dispatched := true)
    case Wake => s.(phase := Woken)
    case Empty => s.(phase := Emptied, dest := if s.direction == D2H then s.temp else s.dest)
    case Free => s.(phase := Freed, temp := [])
    case Subtract => s.(phase := Done, signal := s.signal - 1)
    case EngineDone => Carry(s)
  }

  ghost predicate Initial(s: Copy) {
    && Ordered(s.tree) && s.phase == Created && s.signal == 0 && s.command == Nothing && !s.dispatched
    && |s.dest| == |s.src|
  }

  ghost predicate Possible(s: Copy, es: seq<CopyEvent>)
    decreases |es|
  {
    |es| > 0 ==> Enabled(s, es[0]) && Possible(Step(s, es[0]), es[1..])
  }

  ghost function Exec(s: Copy, es: seq<CopyEvent>): Copy
    requires Possible(s, es)
    decreases |es|
  {
    if |es| == 0 then s else Exec(Step(s, es[0]), es[1..])
  }

  // ---------------------------------------------------------------- the look-ups agree

  /** Spared memory is found as before, whether it is registered or not. */
  lemma SparedIsStable(t: Tree, op: Op, p: nat)
    requires Ordered(t) && Spares(t, op, p)
    ensures FindIn(Apply(t, op), p) == FindIn(t, p)
  {
    match op
    case Insert(q, size, data) => InsertFound(t, q, size, data, p);
    case Remove(q) => RemoveFound(t, q, p);
  }

  lemma TrackKeepsDirection(s: Copy, op: Op)
    requires Ordered(s.tree) && Enabled(s, Track(op))
    ensures Ordered(Apply(s.tree, op)) && DirectionNow(Step(s, Track(op))) == DirectionNow(s)
  {
    ApplyOrdered(s.tree, op);
    SparedIsStable(s.tree, op, s.srcPtr);
    SparedIsStable(s.tree, op, s.destPtr);
  }

  // ---------------------------------------------------------------- the invariant

  /** The thread's decrement is still to come. */
  predicate ThreadPending(s: Copy) {
    match s.phase
    case Acquired => IsStaged(DirectionNow(s))
    case Spawned | Malloced | Filled | Submitted | Announced | Woken | Emptied | Freed => true
    case _ => false
  }

  /** The engine's decrement is still to come. */
  predicate EnginePending(s: Copy) {
    match s.phase
    case Acquired | Marked | Spawned | Malloced | Filled => true
    case _ => s.command != Nothing
  }

  function Pending(s: Copy): nat {
    (if ThreadPending(s) then 1 else 0) + if EnginePending(s) then 1 else 0
  }

  /** Which command may be outstanding where. */
  predicate CommandOk(s: Copy) {
    match s.phase
    case Submitted | Announced =>
      s.command == Nothing || s.command == if s.direction == H2D then TempToDest else SrcToTemp
    case Done => s.command == Nothing || (!IsStaged(s.direction) && s.command == SrcToDest)
    case _ => s.command == Nothing
  }

  /** Where the bytes are. */
  predicate BytesOk(s: Copy) {
    match s.phase
    case Filled => s.direction == H2D ==> s.temp == s.src
    case Submitted | Announced =>
      if s.direction == H2D then s.temp == s.src && (s.command == Nothing ==> s.dest == s.src)
      else s.command == Nothing ==> s.temp == s.src
    case Woken => if s.direction == H2D then s.dest == s.src else s.temp == s.src
    case Emptied | Freed => s.dest == s.src
    case Done => s.command == Nothing ==> s.dest == s.src
    case _ => true
  }

  predicate PhaseOk(s: Copy) {
    && (s.phase == Created || s.phase == Acquired || s.direction == DirectionNow(s))
    && (ThreadPending(s) ==> IsStaged(DirectionNow(s)))
    && (s.phase == Marked ==> !IsStaged(DirectionNow(s)))
    && (s.phase.Marked? || s.phase.Announced? || s.phase.Woken? || s.phase.Emptied? || s.phase.Freed? ||
        s.phase.Done? ==>
          s.dispatched)
  }

  ghost predicate Inv(s: Copy) {
    && Ordered(s.tree) && s.signal == Pending(s) && CommandOk(s) && BytesOk(s) && PhaseOk(s)
  }

  lemma {:induction false} StepKeeps(s: Copy, e: CopyEvent)
    requires Inv(s) && Enabled(s, e)
    ensures Inv(Step(s, e))
  {
    if e.Track? {
      TrackKeepsDirection(s, e.op);
      hide DirectionNow, Apply, Ordered;
    } else {
      hide DirectionNow, Ordered;
      SameDirection(s, Step(s, e));
    }
  }

  lemma SameDirection(s: Copy, s': Copy)
    requires s'.tree == s.tree && s'.cpu == s.cpu && s'.srcPtr == s.srcPtr && s'.destPtr == s.destPtr
    ensures DirectionNow(s') == DirectionNow(s)
  {
  }

  lemma {:induction false} RunKeeps(s: Copy, es: seq<CopyEvent>)
    requires Inv(s) && Possible(s, es)
    ensures Inv(Exec(s, es)) && Exec(s, es).src == s.src
    decreases |es|
  {
    hide Inv;
    if |es| > 0 {
      StepKeeps(s, es[0]);
      RunKeeps(Step(s, es[0]), es[1..]);
    }
  }

  // ---------------------------------------------------------------- the theorems

  /** The signal is at every moment the number of decrements still to come: acquire and dispatch agree on 1 or 2. */
  lemma {:induction false} SignalCountsDecrements(s: Copy, es: seq<CopyEvent>)
    requires Initial(s) && Possible(s, es)
    ensures Exec(s, es).signal == Pending(Exec(s, es))
  {
    RunKeeps(s, es);
  }

  /** When the handler can run, the destination holds the source bytes, and nothing about the task is outstanding. */
  lemma {:induction false} ZeroMeansCopied(s: Copy, es: seq<CopyEvent>)
    requires Initial(s) && Possible(s, es) && Exec(s, es).phase != Created
    ensures Exec(s, es).signal == 0 <==> Exec(s, es).phase == Done && Exec(s, es).command == Nothing
    ensures Exec(s, es).signal == 0 ==> Exec(s, es).dest == s.src && Exec(s, es).dispatched
  {
    RunKeeps(s, es);
  }

  /** The thread's wait for the value 1 ends: whatever has happened so far, somebody can take the next step. */
  lemma {:induction false} CopyNeverStuck(s: Copy, es: seq<CopyEvent>) returns (e: CopyEvent)
    requires Initial(s) && Possible(s, es) && (Exec(s, es).phase == Created || Exec(s, es).signal != 0)
    ensures Enabled(Exec(s, es), e) && !e.Track?
  {
    RunKeeps(s, es);
    var s' := Exec(s, es);
    if s'.command != Nothing {
      e := EngineDone;
    } else {
      match s'.phase
      case Created => e := Acquire;
      case Acquired => e := if IsStaged(DirectionNow(s')) then Spawn else Mark;
      case Marked => e := Submit;
      case Spawned => e := Malloc(s'.src);
      case Malloced => e := Fill;
      case Filled => e := SubmitStaged;
      case Submitted => e := Announce;
      case Announced => e := Wake;
      case Woken => e := Empty;
      case Emptied => e := Free;
      case Freed => e := Subtract;
      case Done => e := EngineDone;
    }
  }

  /** A look-up finds no buffer, so that the address is the caller's own host memory. */
  predicate Unregistered(s: Copy, p: nat) {
    FindIn(s.tree, p) == None
  }

  /** A look-up finds a buffer that is not in CPU memory. */
  predicate OnDevice(s: Copy, p: nat) {
    FindIn(s.tree, p).Some? && FindIn(s.tree, p).value !in s.cpu
  }

  /**
    The engine never copies between a device and unregistered memory; for such a copy it gets the device's buffer and
    the temporary one, and the host's memcpy the unregistered buffer.
   */
  lemma {:induction false} EngineAndHostMemory(s: Copy, es: seq<CopyEvent>)
    requires Initial(s) && Possible(s, es)
    ensures var s' := Exec(s, es);
            && (s'.command == SrcToTemp ==> OnDevice(s', s'.srcPtr) && Unregistered(s', s'.destPtr))
            && (s'.command == TempToDest ==> Unregistered(s', s'.srcPtr) && OnDevice(s', s'.destPtr))
            && (s'.command == SrcToDest ==>
                  && !(Unregistered(s', s'.srcPtr) && OnDevice(s', s'.destPtr))
                  && !(OnDevice(s', s'.srcPtr) && Unregistered(s', s'.destPtr)))
            && (Enabled(s', Fill) && Step(s', Fill).temp != s'.temp ==> Unregistered(s', s'.srcPtr))
            && (Enabled(s', Empty) && Step(s', Empty).dest != s'.dest ==> Unregistered(s', s'.destPtr))
  {
    RunKeeps(s, es);
    hide Exec, Possible, Initial, FindIn;
    var s' := Exec(s, es);
    assert DirectionNow(s') == Classify(FindIn(s'.tree, s'.srcPtr), FindIn(s'.tree, s'.destPtr), s'.cpu);
  }

  // ---------------------------------------------------------------- the task as an object

  class DataTask {
    const tracker: Tracker
    const cpu: set<nat>
    const srcPtr: nat
    const destPtr: nat
    const src: seq<byte>
    var dest: seq<byte>
    var temp: seq<byte>
    var signal: int
    var command: Command
    var direction: Direction
    var dispatched: bool
    ghost var phase: Phase

    ghost function Shared(): Copy
      reads this, tracker
    {
      Copy(tracker.tree, cpu, srcPtr, destPtr, src, dest, temp, signal, phase, direction, command, dispatched)
    }

    ghost predicate Valid()
      reads this, tracker
    {
      tracker.Valid() && Inv(Shared())
    }

    constructor (tracker: Tracker, cpu: set<nat>, srcPtr: nat, destPtr: nat, src: seq<byte>, dest: seq<byte>)
      requires tracker.Valid() && |dest| == |src|
      ensures Valid() && Initial(Shared()) && this.tracker == tracker && this.src == src && this.dest == dest
    {
      this.tracker, this.cpu, this.srcPtr, this.destPtr := tracker, cpu, srcPtr, destPtr;
      this.src, this.dest, temp, signal, command := src, dest, [], 0, Nothing;
      direction, dispatched, phase := H2H, false, Created;
    }

    /** The classification that `acquireAqlPacket` and `dispatch` each make for themselves. */
    method FindDirection() returns (kind: Direction)
      requires tracker.Valid()
      ensures kind == DirectionNow(Shared())
    {
      var srcData := tracker.Find(srcPtr);
      var destData := tracker.Find(destPtr);
      var isSrcHost := srcData.None? || srcData.value in cpu;
      var isDestHost := destData.None? || destData.value in cpu;
      if isSrcHost && isDestHost {
        kind := H2H;
      } else if srcData.Some? && destData.None? {
        kind := D2H;
      } else if srcData.None? && destData.Some? {
        kind := H2D;
      } else {
        kind := D2D;
      }
    }

    method AcquireAqlPacket()
      requires Valid() && phase == Created
      modifies this`signal, this`phase
      ensures Valid() && Shared() == Step(old(Shared()), Acquire)
      ensures var src, dest := FindIn(tracker.tree, srcPtr), FindIn(tracker.tree, destPtr);
              signal == old(signal) +
              if (src == None && dest.Some? && dest.value !in cpu) || (src.Some? && src.value !in cpu && dest == None)
              then 2 else 1
    {
      hide Inv;
      StepKeeps(Shared(), Acquire);
      var kind := FindDirection();
      if kind == H2D || kind == D2H {
        signal := signal + 2;
      } else {
        signal := signal + 1;
      }
      phase := Acquired;
    }

    /** A direct copy is announced and handed to the engine; for a staged one a thread is started. */
    method Dispatch() returns (staged: bool)
      requires Valid() && phase == Acquired
      modifies this`direction, this`dispatched, this`command, this`phase
      ensures Valid()
      ensures var src, dest := FindIn(tracker.tree, srcPtr), FindIn(tracker.tree, destPtr);
              staged <==>
              (src == None && dest.Some? && dest.value !in cpu) || (src.Some? && src.value !in cpu && dest == None)
      ensures staged ==> Shared() == Step(old(Shared()), Spawn)
      ensures !staged ==> Possible(old(Shared()), [Mark, Submit]) && Shared() == Exec(old(Shared()), [Mark, Submit])
    {
      hide Inv;
      var kind := FindDirection();
      staged := kind == H2D || kind == D2H;
      if staged {
        StepKeeps(Shared(), Spawn);
        direction, phase := kind, Spawned;
      } else {
        StepKeeps(Shared(), Mark);
        ghost var s0 := Shared();
        dispatched, direction, phase := true, kind, Marked;
        StepKeeps(Shared(), CopyEvent.Submit);
        TwoSteps(s0);
        command, phase := SrcToDest, Done;
      }
    }

    /** The engine carries out its command, if it has one. */
    method Engine()
      requires Valid()
      modifies this`dest, this`temp, this`signal, this`command
      ensures Valid() && Shared() == Carry(old(Shared()))
    {
      hide Inv;
      if command != Nothing {
        StepKeeps(Shared(), EngineDone);
        if command == SrcToTemp {
          temp := src;
        } else {
          dest := if command == SrcToDest then src else temp;
        }
        command, signal := Nothing, signal - 1;
      }
    }

    /** The staging thread up to its wait: allocate, fill, hand to the engine, announce. */
    method StageBytes(garbage: seq<byte>)
      requires Valid() && phase == Spawned && |garbage| == |src|
      modifies this`temp, this`command, this`dispatched, this`phase
      ensures Valid() && phase == Announced
    {
      hide Inv, DirectionNow;
      StageRun(Shared(), garbage);
      temp, phase := garbage, Malloced;
      if direction == H2D {
        temp := src;
      }
      phase := Filled;
      command := if direction == H2D then TempToDest else SrcToTemp;
      phase := Submitted;
      dispatched, phase := true, Announced;
    }

    /** The thread's wait for the value 1, with the engine at work. */
    method AwaitEngine()
      requires Valid() && phase == Announced
      modifies this`dest, this`temp, this`signal, this`command
      ensures Valid() && signal == 1
    {
      WaitsForEngine(Shared());
      hide Inv;
      while signal != 1
        invariant Valid() && (signal == 2 ==> command != Nothing) && 1 <= signal <= 2
        decreases signal
      {
        Engine();
      }
    }

    /** The rest of the thread: empty the temporary buffer, free it, and give the last decrement. */
    method UnstageBytes()
      requires Valid() && phase == Announced && signal == 1
      modifies this`dest, this`temp, this`signal, this`phase
      ensures Valid() && phase == Done
    {
      hide Inv, DirectionNow;
      UnstageRun(Shared());
      phase := Woken;
      if direction == D2H {
        dest := temp;
      }
      phase := Emptied;
      temp, phase := [], Freed;
      signal, phase := signal - 1, Done;
    }

    /** The whole thread: afterwards the copy is complete. */
    method CopyThread(garbage: seq<byte>)
      requires Valid() && phase == Spawned && |garbage| == |src|
      modifies this`dest, this`temp, this`signal, this`command, this`dispatched, this`phase
      ensures Valid() && phase == Done && signal == 0 && command == Nothing && dispatched && dest == src
    {
      SpawnedIsStaged(Shared());
      StageBytes(garbage);
      AwaitEngine();
      UnstageBytes();
      StagedIsDone(Shared());
    }
  }

  /** The thread's steps up to its wait, taken together. */
  lemma StageRun(s: Copy, garbage: seq<byte>)
    requires Inv(s) && s.phase == Spawned && |garbage| == |s.src|
    ensures Inv(s.(phase := Announced, temp := if s.direction == H2D then s.src else garbage,
                   command := if s.direction == H2D then TempToDest else SrcToTemp, dispatched := true))
  {
    hide Inv, DirectionNow;
    StepKeeps(s, Malloc(garbage));
    var s1 := Step(s, Malloc(garbage));
    StepKeeps(s1, Fill);
    var s2 := Step(s1, Fill);
    StepKeeps(s2, SubmitStaged);
    var s3 := Step(s2, SubmitStaged);
    StepKeeps(s3, CopyEvent.Announce);
  }

  /** And those after it. */
  lemma UnstageRun(s: Copy)
    requires Inv(s) && s.phase == Announced && s.signal == 1
    ensures Inv(s.(phase := Done, temp := [], dest := if s.direction == D2H then s.temp else s.dest, signal := 0))
  {
    hide Inv, DirectionNow;
    StepKeeps(s, CopyEvent.Wake);
    var s1 := Step(s, CopyEvent.Wake);
    StepKeeps(s1, CopyEvent.Empty);
    var s2 := Step(s1, CopyEvent.Empty);
    StepKeeps(s2, CopyEvent.Free);
    var s3 := Step(s2, CopyEvent.Free);
    StepKeeps(s3, CopyEvent.Subtract);
  }

  lemma WaitsForEngine(s: Copy)
    requires Inv(s) && s.phase == Announced
    ensures 1 <= s.signal <= 2 && (s.signal == 2 ==> s.command != Nothing)
  {
  }

  lemma SpawnedIsStaged(s: Copy)
    requires Inv(s) && s.phase == Spawned
    ensures IsStaged(s.direction)
  {
  }

  lemma StagedIsDone(s: Copy)
    requires Inv(s) && s.phase == Done && IsStaged(s.direction)
    ensures s.signal == 0 && s.command == Nothing && s.dispatched && s.dest == s.src
  {
  }

  lemma TwoSteps(s: Copy)
    requires Enabled(s, Mark)
    ensures Possible(s, [Mark, Submit]) && Exec(s, [Mark, Submit]) == Step(Step(s, Mark), Submit)
  {
    assert [Mark, Submit][1..] == [Submit];
    assert [Submit][1..] == [];
    assert Possible(Step(Step(s, Mark), Submit), []);
    assert Possible(Step(s, Mark), [Submit]);
  }
}
