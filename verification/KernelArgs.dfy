/**
  Kernel arguments on their way to a CPU kernel: packed at running-sum offsets (`CPUKernelImpl`,
  `updateKernargRegion`), staged, copied into a segment of one contiguous region, and read back by the packet
  processor at its own running sums.
 */
module KernelArgs {
  import opened Wrappers
  import opened TaskStates
  import opened HostCallback
  import Invariant = HostCallbackInvariant
  import HostCallbackLaunch
  import HostCallbackSafety

  /** The bytes taken by the first n arguments: the offset of argument n. */
  function Offset(sizes: seq<nat>, n: nat): (sum: nat)
    requires n <= |sizes|
  {
    if n == 0 then 0 else Offset(sizes, n - 1) + sizes[n - 1]
  }

  lemma {:induction false} OffsetsGrow(sizes: seq<nat>, m: nat, n: nat)
    requires m <= n <= |sizes|
    ensures Offset(sizes, m) <= Offset(sizes, n)
    decreases n
  {
    if m < n { OffsetsGrow(sizes, m, n - 1); }
  }

  /** Places that adjoin one another, from start to end. */
  ghost predicate EndToEnd(start: nat, places: seq<nat>, sizes: seq<nat>, end: nat)
    requires |places| <= |sizes|
  {
    if |places| == 0 then
      end == start
    else
      && places[0] == start && end == places[|places| - 1] + sizes[|places| - 1]
      && forall i {:trigger places[i]} :: 0 < i < |places| ==> places[i] == places[i - 1] + sizes[i - 1]
  }

  lemma NoPlaces(start: nat, sizes: seq<nat>)
    ensures EndToEnd(start, [], sizes, start)
  {
  }

  lemma OneMorePlace(start: nat, places: seq<nat>, sizes: seq<nat>, end: nat)
    requires |places| < |sizes| && EndToEnd(start, places, sizes, end)
    ensures EndToEnd(start, places + [end], sizes, end + sizes[|places|])
  {
    var more := places + [end];
    assert forall i :: 0 <= i < |places| ==> more[i] == places[i];
  }

  /** memcpy to an address of a region. */
  function Overwrite(region: seq<byte>, at: nat, bytes: seq<byte>): (r: seq<byte>)
    requires at + |bytes| <= |region|
    ensures |r| == |region|
  {
    region[..at] + bytes + region[at + |bytes|..]
  }

  predicate Sized(sizes: seq<nat>, args: seq<seq<byte>>) {
    |args| == |sizes| && forall i :: 0 <= i < |sizes| ==> |args[i]| == sizes[i]
  }

  /** A region in which the first n arguments stand at their offsets. */
  ghost predicate Holds(region: seq<byte>, sizes: seq<nat>, args: seq<seq<byte>>, n: nat)
    requires Sized(sizes, args) && n <= |sizes|
  {
    Offset(sizes, n) <= |region| &&
    forall i {:trigger args[i]} :: 0 <= i < n ==> HoldsAt(region, Offset(sizes, i), args[i])
  }

  ghost predicate HoldsAt(region: seq<byte>, at: nat, bytes: seq<byte>) {
    at + |bytes| <= |region| && region[at..at + |bytes|] == bytes
  }

  // ---------------------------------------------------------------- the loops

  /** The constructor's loop: every offset, and the size of a segment. */
  method CpuOffsets(sizes: seq<nat>) returns (offsets: seq<nat>, segmentSize: nat)
    ensures |offsets| == |sizes| && segmentSize == Offset(sizes, |sizes|)
    ensures forall i {:trigger offsets[i]} :: 0 <= i < |sizes| ==>
              offsets[i] == Offset(sizes, i) && offsets[i] + sizes[i] <= segmentSize
    ensures forall i, j :: 0 <= i < j < |sizes| ==> offsets[i] + sizes[i] <= offsets[j]
    ensures EndToEnd(0, offsets, sizes, segmentSize)
  {
    hide EndToEnd;
    offsets, segmentSize := [], 0;
    NoPlaces(0, sizes);
    for n := 0 to |sizes|
      invariant |offsets| == n && segmentSize == Offset(sizes, n)
      invariant forall i {:trigger offsets[i]} :: 0 <= i < n ==> offsets[i] == Offset(sizes, i)
      invariant EndToEnd(0, offsets, sizes, segmentSize)
    {
      OneMorePlace(0, offsets, sizes, segmentSize);
      offsets := offsets + [segmentSize];
      segmentSize := segmentSize + sizes[n];
    }
    hide Offset;
    forall i, j | 0 <= i < j <= |sizes|
      ensures Offset(sizes, i) + sizes[i] <= Offset(sizes, j)
    {
      PlaceBefore(sizes, i, j);
    }
  }

  /** `updateKernargRegion`: one copy an argument; no byte outside the arguments' places changes. */
  method UpdateKernargRegion(region: array<byte>, offsets: seq<nat>, sizes: seq<nat>, args: seq<seq<byte>>)
    requires Sized(sizes, args) && |offsets| == |sizes| && region.Length >= Offset(sizes, |sizes|)
    requires forall i {:trigger offsets[i]} :: 0 <= i < |sizes| ==> offsets[i] == Offset(sizes, i)
    modifies region
    ensures Holds(region[..], sizes, args, |sizes|)
    ensures region[..][Offset(sizes, |sizes|)..] == old(region[..])[Offset(sizes, |sizes|)..]
  {
    hide Offset, Holds, HoldsAt, Overwrite;
    NothingHeld(region[..], sizes, args);
    for n := 0 to |sizes|
      invariant Offset(sizes, n) <= region.Length && Holds(region[..], sizes, args, n)
      invariant region[..][Offset(sizes, n)..] == old(region[..])[Offset(sizes, n)..]
    {
      OffsetsGrow(sizes, n + 1, |sizes|);
      OffsetStep(sizes, n);
      ghost var before := region[..];
      Copy(region, offsets[n], args[n]);
      OverwriteHolds(before, sizes, args, n);
      OverwriteTail(before, old(region[..]), Offset(sizes, n), args[n]);
    }
  }

  method Copy(region: array<byte>, at: nat, bytes: seq<byte>)
    requires at + |bytes| <= region.Length
    modifies region
    ensures region[..] == Overwrite(old(region[..]), at, bytes)
  {
    ghost var was := region[..];
    assert Overwrite(was, at, bytes[..0]) == was;
    hide Overwrite;
    for i := 0 to |bytes|
      invariant region[..] == Overwrite(was, at, bytes[..i])
    {
      OverwriteNext(was, at, bytes, i);
      region[at + i] := bytes[i];
    }
    assert bytes[..|bytes|] == bytes;
  }

  lemma OverwriteNext(region: seq<byte>, at: nat, bytes: seq<byte>, i: nat)
    requires i < |bytes| && at + |bytes| <= |region|
    ensures Overwrite(region, at, bytes[..i])[at + i := bytes[i]] == Overwrite(region, at, bytes[..i + 1])
  {
    var a, b := Overwrite(region, at, bytes[..i])[at + i := bytes[i]], Overwrite(region, at, bytes[..i + 1]);
    assert forall j :: 0 <= j < |region| ==> a[j] == b[j];
  }

  lemma NothingHeld(region: seq<byte>, sizes: seq<nat>, args: seq<seq<byte>>)
    requires Sized(sizes, args)
    ensures Offset(sizes, 0) == 0 && Holds(region, sizes, args, 0)
  {
  }

  lemma OverwriteTail(region: seq<byte>, was: seq<byte>, at: nat, bytes: seq<byte>)
    requires at + |bytes| <= |region| == |was| && region[at..] == was[at..]
    ensures Overwrite(region, at, bytes)[at + |bytes|..] == was[at + |bytes|..]
  {
    assert region[at..][|bytes|..] == region[at + |bytes|..];
    assert was[at..][|bytes|..] == was[at + |bytes|..];
  }

  lemma KeepsBefore(region: seq<byte>, at: nat, bytes: seq<byte>, place: nat, x: seq<byte>)
    requires at + |bytes| <= |region| && HoldsAt(region, place, x) && place + |x| <= at
    ensures HoldsAt(Overwrite(region, at, bytes), place, x)
  {
    var r := Overwrite(region, at, bytes);
    assert r[..at] == region[..at];
    assert r[place..place + |x|] == r[..at][place..place + |x|];
    assert region[place..place + |x|] == region[..at][place..place + |x|];
  }

  lemma HoldsItself(region: seq<byte>, at: nat, bytes: seq<byte>)
    requires at + |bytes| <= |region|
    ensures HoldsAt(Overwrite(region, at, bytes), at, bytes)
  {
  }

  lemma {:induction false} KeepsPlace(region: seq<byte>, sizes: seq<nat>, args: seq<seq<byte>>, n: nat, i: nat)
    requires Sized(sizes, args) && i < n < |sizes| && Offset(sizes, n) + |args[n]| <= |region|
    requires Holds(region, sizes, args, n)
    ensures HoldsAt(Overwrite(region, Offset(sizes, n), args[n]), Offset(sizes, i), args[i])
  {
    hide HoldsAt, Overwrite, Offset;
    assert HoldsAt(region, Offset(sizes, i), args[i]);
    PlaceBefore(sizes, i, n);
    KeepsBefore(region, Offset(sizes, n), args[n], Offset(sizes, i), args[i]);
  }

  lemma {:induction false} OverwriteHolds(region: seq<byte>, sizes: seq<nat>, args: seq<seq<byte>>, n: nat)
    requires Sized(sizes, args) && n < |sizes| && Offset(sizes, n + 1) <= |region| && Holds(region, sizes, args, n)
    ensures Holds(Overwrite(region, Offset(sizes, n), args[n]), sizes, args, n + 1)
  {
    OffsetStep(sizes, n);
    hide HoldsAt, Overwrite, Offset;
    var r := Overwrite(region, Offset(sizes, n), args[n]);
    HoldsItself(region, Offset(sizes, n), args[n]);
    forall i | 0 <= i < n
      ensures HoldsAt(r, Offset(sizes, i), args[i])
    {
      KeepsPlace(region, sizes, args, n, i);
    }
    assert |r| == |region|;
  }

  lemma {:induction false} PlaceBefore(sizes: seq<nat>, i: nat, n: nat)
    requires i < n <= |sizes|
    ensures Offset(sizes, i) + sizes[i] <= Offset(sizes, n)
  {
    OffsetStep(sizes, i);
    OffsetsGrow(sizes, i + 1, n);
  }

  lemma {:induction false} OffsetStep(sizes: seq<nat>, i: nat)
    requires i < |sizes|
    ensures Offset(sizes, i + 1) == Offset(sizes, i) + sizes[i]
  {
  }

  /** The packet processor's loop: where it tells the kernel its arguments are. */
  method ReadPointers(base: nat, sizes: seq<nat>) returns (pointers: seq<nat>)
    ensures |pointers| == |sizes|
    ensures forall i {:trigger pointers[i]} :: 0 <= i < |sizes| ==> pointers[i] == base + Offset(sizes, i)
    ensures EndToEnd(base, pointers, sizes, base + Offset(sizes, |sizes|))
  {
    hide EndToEnd;
    pointers := [];
    var address := base;
    NoPlaces(base, sizes);
    for n := 0 to |sizes|
      invariant |pointers| == n && address == base + Offset(sizes, n)
      invariant forall i {:trigger pointers[i]} :: 0 <= i < n ==> pointers[i] == base + Offset(sizes, i)
      invariant EndToEnd(base, pointers, sizes, address)
    {
      OneMorePlace(base, pointers, sizes, address);
      pointers := pointers + [address];
      address := address + sizes[n];
    }
  }

  // ---------------------------------------------------------------- one contiguous region

  /** The segments of a kernel's region, one after the other. */
  function Flat(segments: seq<seq<byte>>): seq<byte> {
    if |segments| == 0 then [] else Flat(segments[..|segments| - 1]) + segments[|segments| - 1]
  }

  predicate AllSized(segments: seq<seq<byte>>, size: nat) {
    forall k :: 0 <= k < |segments| ==> |segments[k]| == size
  }

  lemma {:induction false} FlatLength(segments: seq<seq<byte>>, size: nat)
    requires AllSized(segments, size)
    ensures |Flat(segments)| == |segments| * size
  {
    if |segments| > 0 {
      FlatLength(segments[..|segments| - 1], size);
      assert |segments| * size == (|segments| - 1) * size + size;
    }
  }

  function SegmentAddress(k: nat, size: nat): nat {
    k * size
  }

  /** Segment k lies at `free_idx * kernarg_segment_size`. */
  lemma {:induction false} SegmentPlace(segments: seq<seq<byte>>, size: nat, k: nat)
    requires AllSized(segments, size) && k < |segments|
    ensures HoldsAt(Flat(segments), SegmentAddress(k, size), segments[k])
  {
    var rest, last := segments[..|segments| - 1], segments[|segments| - 1];
    FlatLength(rest, size);
    if k < |rest| {
      SegmentPlace(rest, size, k);
      HoldsInPrefix(Flat(rest), last, SegmentAddress(k, size), rest[k]);
    } else {
      assert k * size == |Flat(rest)|;
    }
  }

  lemma HoldsInPrefix(region: seq<byte>, more: seq<byte>, at: nat, x: seq<byte>)
    requires HoldsAt(region, at, x)
    ensures HoldsAt(region + more, at, x)
  {
    assert (region + more)[at..at + |x|] == region[at..at + |x|];
  }

  /** A copy to the start of segment k changes that segment alone: the region is a row of separate segments. */
  lemma {:induction false} CopyIntoSegment(segments: seq<seq<byte>>, size: nat, k: nat, bytes: seq<byte>)
    requires AllSized(segments, size) && k < |segments| && |bytes| <= size
    ensures SegmentAddress(k, size) + |bytes| <= |Flat(segments)|
    ensures Overwrite(Flat(segments), SegmentAddress(k, size), bytes) ==
            Flat(segments[k := bytes + segments[k][|bytes|..]])
  {
    hide Overwrite;
    var n := |segments| - 1;
    var rest, last, seg := segments[..n], segments[n], bytes + segments[k][|bytes|..];
    FlatLength(rest, size);
    assert Flat(segments) == Flat(rest) + last;
    if k < n {
      CopyIntoSegment(rest, size, k, bytes);
      assert segments[k := seg][..n] == rest[k := seg];
      assert Flat(segments[k := seg]) == Flat(rest[k := seg]) + last;
      OverwriteFirst(Flat(rest), last, SegmentAddress(k, size), bytes);
    } else {
      assert segments[k := seg][..n] == rest;
      assert Flat(segments[k := seg]) == Flat(rest) + seg;
      OverwriteLast(Flat(rest), last, bytes);
    }
  }

  lemma OverwriteFirst(a: seq<byte>, b: seq<byte>, at: nat, bytes: seq<byte>)
    requires at + |bytes| <= |a|
    ensures Overwrite(a + b, at, bytes) == Overwrite(a, at, bytes) + b
  {
  }

  lemma OverwriteLast(a: seq<byte>, b: seq<byte>, bytes: seq<byte>)
    requires |bytes| <= |b|
    ensures Overwrite(a + b, |a|, bytes) == a + (bytes + b[|bytes|..])
  {
  }

  /** Claiming a segment, as the scheduler's steps have it, is one memcpy to the segment's address in the region. */
  lemma ClaimIsMemcpy(k: KernelImpl, image: seq<byte>)
    requires Pooled(k) && |k.free| > 0 && |image| == k.segmentSize
    ensures SegmentAddress(k.free[0], k.segmentSize) + k.copySize <= |Flat(k.segments)|
    ensures Flat(TakeSegment(k, image).segments) ==
            Overwrite(Flat(k.segments), SegmentAddress(k.free[0], k.segmentSize), image[..k.copySize])
  {
    hide Flat, Overwrite;
    CopyIntoSegment(k.segments, k.segmentSize, k.free[0], image[..k.copySize]);
  }

  // ---------------------------------------------------------------- in 32 bits

  const WORD32: nat := 0x1_0000_0000

  /** `free_idx * kernarg_segment_size` and `kernarg_segment_size_ * MAX_NUM_KERNELS`, as unsigned 32-bit products. */
  function Address32(k: nat, size: nat): nat {
    SegmentAddress(k, size) % WORD32
  }

  function RegionSize32(size: nat): nat {
    SegmentAddress(MAX_NUM_KERNELS, size) % WORD32
  }

  /** Segment k is where it should be, and inside what was allocated. */
  predicate Fits32(k: nat, size: nat) {
    Address32(k, size) == SegmentAddress(k, size) && Address32(k, size) + size <= RegionSize32(size)
  }

  lemma NextSegment(k: nat, size: nat)
    ensures SegmentAddress(k + 1, size) == SegmentAddress(k, size) + size
  {
  }

  lemma {:induction false} SegmentsAscend(j: nat, k: nat, size: nat)
    requires j <= k
    ensures SegmentAddress(j, size) <= SegmentAddress(k, size)
    decreases k
  {
    hide SegmentAddress;
    if j < k {
      SegmentsAscend(j, k - 1, size);
      NextSegment(k - 1, size);
    }
  }

  /** All segments are where they should be if and only if all of them together are less than 2^32 bytes. */
  lemma {:induction false} SegmentsFitIff(size: nat)
    ensures (forall k :: 0 <= k < MAX_NUM_KERNELS ==> Fits32(k, size)) <==>
            SegmentAddress(MAX_NUM_KERNELS, size) < WORD32
  {
    hide SegmentAddress;
    if SegmentAddress(MAX_NUM_KERNELS, size) < WORD32 {
      forall k | 0 <= k < MAX_NUM_KERNELS
        ensures Fits32(k, size)
      {
        NextSegment(k, size);
        SegmentsAscend(k + 1, MAX_NUM_KERNELS, size);
      }
    } else {
      NextSegment(MAX_NUM_KERNELS - 1, size);
      assert !Fits32(MAX_NUM_KERNELS - 1, size);
    }
  }

  /** The largest segment size is one byte below 256 KiB. */
  lemma LargestSegment(size: nat)
    ensures SegmentAddress(MAX_NUM_KERNELS, size) < WORD32 <==> size < 0x4_0000
    ensures !Fits32(MAX_NUM_KERNELS - 1, 0x4_0000)
  {
  }

  /** Then the memcpy goes to the address that the program computes. */
  lemma ClaimIn32Bits(k: KernelImpl, image: seq<byte>)
    requires Pooled(k) && |k.free| > 0 && |image| == k.segmentSize
    requires SegmentAddress(MAX_NUM_KERNELS, k.segmentSize) < WORD32
    ensures Address32(k.free[0], k.segmentSize) + k.copySize <= |Flat(k.segments)|
    ensures Flat(TakeSegment(k, image).segments) ==
            Overwrite(Flat(k.segments), Address32(k.free[0], k.segmentSize), image[..k.copySize])
  {
    SegmentsFitIff(k.segmentSize);
    assert Fits32(k.free[0], k.segmentSize);
    hide Flat, Overwrite, TakeSegment, SegmentAddress;
    ClaimIsMemcpy(k, image);
  }

  // ---------------------------------------------------------------- the round trip

  /** What stands in a part of a region stands in the region. */
  lemma HoldsWithin(region: seq<byte>, base: nat, part: seq<byte>, at: nat, x: seq<byte>)
    requires HoldsAt(region, base, part) && HoldsAt(part, at, x)
    ensures HoldsAt(region, base + at, x)
  {
    var place := base + at;
    assert place + |x| <= |region|;
    forall j | 0 <= j < |x|
      ensures region[place..place + |x|][j] == x[j]
    {
      assert part[at..at + |x|][j] == part[at + j];
      assert region[base..base + |part|][at + j] == region[place + j];
    }
    assert region[place..place + |x|] == x;
  }

  /** A task whose kernel is about to run or running. */
  ghost predicate InFlight(s: State, t: nat) {
    && t < |s.tasks| && (s.tasks[t].status == Ready || s.tasks[t].status == Dispatched)
    && s.tasks[t].kernel.Some? && s.tasks[t].kernel.value < |s.kernels|
  }

  ghost function KernelOf(s: State, t: nat): KernelImpl
    requires InFlight(s, t)
  {
    s.kernels[s.tasks[t].kernel.value]
  }

  /** The address the packet carries as the task's kernarg region. */
  ghost function RegionAddress(s: State, t: nat): nat
    requires InFlight(s, t)
  {
    SegmentAddress(s.tasks[t].segment, KernelOf(s, t).segmentSize)
  }

  /** The segment holds what is staged, as far as it is copied. */
  ghost predicate SegmentKeeps(k: KernelImpl, segment: nat, image: seq<byte>) {
    && AllSized(k.segments, k.segmentSize) && segment < |k.segments| && k.copySize <= |image|
    && |k.segments[segment]| == |image| && k.segments[segment][..k.copySize] == image[..k.copySize]
  }

  /** A kernel task made by event k of the run, and in flight now. */
  ghost predicate LaunchedInFlight(s: State, es: seq<Event>, k: nat, t: nat) {
    && Initial(s) && Possible(s, es) && HostCallbackLaunch.Makes(s, es, k, t)
    && InFlight(Exec(s, es), t)
  }

  lemma {:induction false} SegmentOf(s: State, es: seq<Event>, k: nat, t: nat)
    requires LaunchedInFlight(s, es, k, t)
    ensures SegmentKeeps(KernelOf(Exec(s, es), t), Exec(s, es).tasks[t].segment, es[k].image)
  {
    SegmentSizes(s, es, t);
    HostCallbackLaunch.TaskIsAsLaunched(s, es, k, t);
    hide AllSized, Exec, Possible, Initial;
    HostCallbackLaunch.ArgumentsSurvive(s, es, k, t);
  }

  lemma {:induction false} BytesInRegion(k: KernelImpl, segment: nat, image: seq<byte>, at: nat, bytes: seq<byte>)
    requires SegmentKeeps(k, segment, image) && HoldsAt(image, at, bytes) && at + |bytes| <= k.copySize
    ensures HoldsAt(Flat(k.segments), SegmentAddress(segment, k.segmentSize) + at, bytes)
  {
    PrefixHolds(k.segments[segment], image, k.copySize, at, bytes);
    hide HoldsAt, Flat, SegmentAddress;
    SegmentPlace(k.segments, k.segmentSize, segment);
    HoldsWithin(Flat(k.segments), SegmentAddress(segment, k.segmentSize), k.segments[segment], at, bytes);
  }

  lemma PrefixHolds(a: seq<byte>, b: seq<byte>, n: nat, at: nat, x: seq<byte>)
    requires n <= |a| && n <= |b| && a[..n] == b[..n] && HoldsAt(b, at, x) && at + |x| <= n
    ensures HoldsAt(a, at, x)
  {
    assert a[at..at + |x|] == a[..n][at..at + |x|];
    assert b[at..at + |x|] == b[..n][at..at + |x|];
  }

  /**
    In any run, while a task is in flight, whatever was staged for it at launch, short of a GPU kernel's implicit
    block, stands at the same place of its segment of the kernel's region, whatever others did.
   */
  lemma {:induction false} StagedBytesSurvive(
    s: State, es: seq<Event>, k: nat, t: nat, at: nat, bytes: seq<byte>)
    requires LaunchedInFlight(s, es, k, t)
    requires HoldsAt(es[k].image, at, bytes) && at + |bytes| <= KernelOf(Exec(s, es), t).copySize
    ensures HoldsAt(Flat(KernelOf(Exec(s, es), t).segments), RegionAddress(Exec(s, es), t) + at, bytes)
  {
    SegmentOf(s, es, k, t);
    hide HoldsAt, Flat, SegmentAddress, SegmentKeeps, Exec, Possible, Initial;
    var s' := Exec(s, es);
    BytesInRegion(KernelOf(s', t), s'.tasks[t].segment, es[k].image, at, bytes);
  }

  lemma {:induction false} HeldArgument(image: seq<byte>, sizes: seq<nat>, args: seq<seq<byte>>, i: nat)
    requires Sized(sizes, args) && i < |sizes| && Holds(image, sizes, args, |sizes|)
    ensures HoldsAt(image, Offset(sizes, i), args[i]) && Offset(sizes, i) + |args[i]| <= Offset(sizes, |sizes|)
  {
    hide HoldsAt, Offset;
    PlaceBefore(sizes, i, |sizes|);
    assert HoldsAt(image, Offset(sizes, i), args[i]);
  }

  /**
    So the i-th pointer that the packet processor computes for a CPU kernel, RegionAddress plus its running sum,
    addresses exactly the bytes of args[i], if they were staged by the launch.
   */
  lemma {:induction false} CpuArgumentsRoundTrip(
    s: State, es: seq<Event>, k: nat, t: nat, sizes: seq<nat>, args: seq<seq<byte>>, i: nat)
    requires LaunchedInFlight(s, es, k, t) && Sized(sizes, args) && i < |sizes|
    requires Holds(es[k].image, sizes, args, |sizes|)
    requires KernelOf(Exec(s, es), t).copySize == KernelOf(Exec(s, es), t).segmentSize == Offset(sizes, |sizes|)
    ensures HoldsAt(Flat(KernelOf(Exec(s, es), t).segments), RegionAddress(Exec(s, es), t) + Offset(sizes, i), args[i])
  {
    hide Holds, HoldsAt, Flat, Exec, Possible, Initial, RegionAddress, KernelOf, Offset;
    HeldArgument(es[k].image, sizes, args, i);
    StagedBytesSurvive(s, es, k, t, Offset(sizes, i), args[i]);
  }

  lemma {:induction false} EveryPointer(
    s: State, es: seq<Event>, k: nat, t: nat, sizes: seq<nat>, args: seq<seq<byte>>, pointers: seq<nat>)
    requires LaunchedInFlight(s, es, k, t) && Sized(sizes, args)
    requires Holds(es[k].image, sizes, args, |sizes|) && |pointers| == |sizes|
    requires KernelOf(Exec(s, es), t).copySize == KernelOf(Exec(s, es), t).segmentSize == Offset(sizes, |sizes|)
    requires forall i {:trigger pointers[i]} :: 0 <= i < |sizes| ==>
               pointers[i] == RegionAddress(Exec(s, es), t) + Offset(sizes, i)
    ensures forall i {:trigger pointers[i]} :: 0 <= i < |sizes| ==>
              HoldsAt(Flat(KernelOf(Exec(s, es), t).segments), pointers[i], args[i])
  {
    hide Holds, HoldsAt, Flat, Exec, Possible, Initial, RegionAddress, KernelOf, Offset, InFlight;
    forall i | 0 <= i < |sizes|
      ensures HoldsAt(Flat(KernelOf(Exec(s, es), t).segments), pointers[i], args[i])
    {
      CpuArgumentsRoundTrip(s, es, k, t, sizes, args, i);
    }
  }

  /**
    Staging at launch, and the processor's loop when the packet is at its head: if the image is what event k
    launched task t with, and t is in flight after any run, the pointers passed to the kernel address the arguments.
   */
  method PassArguments(
    sizes: seq<nat>, args: seq<seq<byte>>, base: nat, ghost s: State, ghost es: seq<Event>, ghost k: nat, ghost t: nat)
    returns (image: seq<byte>, pointers: seq<nat>)
    requires Sized(sizes, args) && LaunchedInFlight(s, es, k, t)
    requires KernelOf(Exec(s, es), t).copySize == KernelOf(Exec(s, es), t).segmentSize == Offset(sizes, |sizes|)
    requires base == RegionAddress(Exec(s, es), t)
    ensures |image| == Offset(sizes, |sizes|) && |pointers| == |sizes|
    ensures es[k].image == image ==>
              forall i {:trigger pointers[i]} :: 0 <= i < |sizes| ==>
                HoldsAt(Flat(KernelOf(Exec(s, es), t).segments), pointers[i], args[i])
  {
    var offsets, size := CpuOffsets(sizes);
    var region := new byte[size](_ => 0);
    UpdateKernargRegion(region, offsets, sizes, args);
    image := region[..];
    pointers := ReadPointers(base, sizes);
    hide Holds, HoldsAt, Flat, Exec, Possible, Initial, RegionAddress, KernelOf, Offset;
    if es[k].image == image {
      EveryPointer(s, es, k, t, sizes, args, pointers);
    }
  }

  lemma {:induction false} SegmentSizes(s: State, es: seq<Event>, t: nat)
    requires Initial(s) && Possible(s, es) && InFlight(Exec(s, es), t)
    ensures AllSized(KernelOf(Exec(s, es), t).segments, KernelOf(Exec(s, es), t).segmentSize)
  {
    HostCallbackSafety.InitialHolds(s);
    HostCallbackSafety.RunKeeps(s, es);
    var s' := Exec(s, es);
    assert Pooled(s'.kernels[s'.tasks[t].kernel.value]);
  }
}
