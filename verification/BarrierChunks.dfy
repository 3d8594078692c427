/** `enqueue_barrier_async` on a ring: a list of signals as a row of barrier packets. */
module BarrierChunks {
  import opened Wrappers
  import opened Bits
  import opened AqlRing
  import BarrierMode

  const MAX_DEPS: nat := BarrierMode.MAX_DEPS

  /** A barrier packet with its five dependency slots, 0 where there is none, or any other packet. */
  datatype AqlPacket =
    | BarrierAql(orType: bool, barrierBit: bool, deps: seq<nat>, completion: nat)
    | DispatchAql(id: nat)

  // ---------------------------------------------------------------- what the packets should be

  /** n / 5, rounded up. */
  function PacketCount(n: nat): nat {
    (n + MAX_DEPS - 1) / MAX_DEPS
  }

  function DepSlot(signals: seq<nat>, i: nat): nat {
    if i < |signals| then signals[i] else 0
  }

  function DepSlots(signals: seq<nat>, k: nat): (deps: seq<nat>)
    ensures |deps| == MAX_DEPS && forall j :: 0 <= j < MAX_DEPS ==> deps[j] == DepSlot(signals, MAX_DEPS * k + j)
  {
    seq<nat>(MAX_DEPS, j requires 0 <= j => DepSlot(signals, MAX_DEPS * k + j))
  }

  /** Packet k for a list of signals; completion is the signal to decrement at the end, or 0. */
  function BarrierAt(signals: seq<nat>, k: nat, orType: bool, completion: nat): AqlPacket {
    var last := k == PacketCount(|signals|) - 1;
    BarrierAql(orType, last, DepSlots(signals, k), if last then completion else 0)
  }

  function BarrierRow(signals: seq<nat>, n: nat, orType: bool, completion: nat): (row: seq<AqlPacket>)
    ensures |row| == n
  {
    seq(n, k requires 0 <= k => BarrierAt(signals, k, orType, completion))
  }

  // ---------------------------------------------------------------- what it means

  function NonZero(deps: seq<nat>): seq<nat> {
    if |deps| == 0 then [] else (if deps[0] == 0 then [] else [deps[0]]) + NonZero(deps[1..])
  }

  /** The non-zero dependency slots of all packets, one after the other. */
  function AllDeps(row: seq<AqlPacket>): seq<nat> {
    if |row| == 0 then []
    else AllDeps(row[..|row| - 1]) + if row[|row| - 1].BarrierAql? then NonZero(row[|row| - 1].deps) else []
  }

  lemma {:induction false} NonZeroOf(signals: seq<nat>, zeros: nat, deps: seq<nat>)
    requires (forall i :: 0 <= i < |signals| ==> signals[i] != 0) && |deps| == |signals| + zeros
    requires forall i :: 0 <= i < |deps| ==> deps[i] == DepSlot(signals, i)
    ensures NonZero(deps) == signals
    decreases |deps|
  {
    if |signals| > 0 {
      NonZeroOf(signals[1..], zeros, deps[1..]);
      assert signals == [signals[0]] + signals[1..];
    } else if zeros > 0 {
      assert forall i :: 0 <= i < |deps| - 1 ==> deps[1..][i] == DepSlot(signals, i);
      NonZeroOf(signals, zeros - 1, deps[1..]);
    }
  }

  function Min(a: int, b: int): int {
    if a <= b then a else b
  }

  /** Packet k holds the k-th five signals. */
  lemma DepsOfPacket(signals: seq<nat>, k: nat)
    requires (forall i :: 0 <= i < |signals| ==> signals[i] != 0) && MAX_DEPS * k <= |signals|
    ensures NonZero(DepSlots(signals, k)) == signals[MAX_DEPS * k..Min(MAX_DEPS * (k + 1), |signals|)]
  {
    var part := signals[MAX_DEPS * k..Min(MAX_DEPS * (k + 1), |signals|)];
    forall j | 0 <= j < MAX_DEPS
      ensures DepSlots(signals, k)[j] == DepSlot(part, j)
    {
      if MAX_DEPS * k + j < |signals| { assert part[j] == signals[MAX_DEPS * k + j]; }
    }
    NonZeroOf(part, MAX_DEPS - |part|, DepSlots(signals, k));
  }

  lemma CountBounds(n: nat)
    ensures MAX_DEPS * PacketCount(n) >= n
    ensures n > 0 ==> PacketCount(n) > 0 && MAX_DEPS * (PacketCount(n) - 1) < n
    ensures n == 0 ==> PacketCount(n) == 0
  {
  }

  lemma {:induction false} DepsOfRow(signals: seq<nat>, n: nat, orType: bool, completion: nat)
    requires (forall i :: 0 <= i < |signals| ==> signals[i] != 0) && n <= PacketCount(|signals|)
    ensures AllDeps(BarrierRow(signals, n, orType, completion)) == signals[..Min(MAX_DEPS * n, |signals|)]
  {
    hide DepSlot, DepSlots, NonZero;
    CountBounds(|signals|);
    var row := BarrierRow(signals, n, orType, completion);
    if n > 0 {
      assert row[..n - 1] == BarrierRow(signals, n - 1, orType, completion);
      assert row[n - 1].deps == DepSlots(signals, n - 1);
      DepsOfRow(signals, n - 1, orType, completion);
      DepsOfPacket(signals, n - 1);
    }
  }

  predicate IsBarrier(p: AqlPacket, orType: bool, last: bool, completion: nat) {
    p.BarrierAql? && p.orType == orType && p.barrierBit == last && p.completion == if last then completion else 0
  }

  /**
    Barrier chunking: exactly ceil(n / 5) packets of five slots, of which the non-zero ones are the n signals in
    order, and only the last of which has the barrier bit or decrements the completion signal.
   */
  lemma RowIsChunked(signals: seq<nat>, orType: bool, completion: nat)
    requires forall i :: 0 <= i < |signals| ==> signals[i] != 0
    ensures var row := BarrierRow(signals, PacketCount(|signals|), orType, completion);
            AllDeps(row) == signals && |row| == (|signals| + 4) / 5
            && forall k :: 0 <= k < |row| ==> row[k].BarrierAql? && |row[k].deps| == 5
    ensures var row := BarrierRow(signals, PacketCount(|signals|), orType, completion);
            forall k :: 0 <= k < |row| ==> IsBarrier(row[k], orType, k == |row| - 1, completion)
  {
    CountBounds(|signals|);
    DepsOfRow(signals, PacketCount(|signals|), orType, completion);
  }

  /** A packet as the scheduler's model sees it: the signals to wait for, its bit, and whether a handler is told. */
  function Abstract(p: AqlPacket): BarrierMode.Packet {
    match p
    case BarrierAql(_, bit, deps, completion) => BarrierMode.Barrier(NonZero(deps), bit, completion != 0)
    case DispatchAql(id) => BarrierMode.Slot(id)
  }

  function AbstractRow(row: seq<AqlPacket>): (r: seq<BarrierMode.Packet>)
    ensures |r| == |row|
  {
    seq(|row|, k requires 0 <= k < |row| => Abstract(row[k]))
  }

  lemma CountStep(n: nat)
    requires n > MAX_DEPS
    ensures PacketCount(n) == PacketCount(n - MAX_DEPS) + 1
  {
  }

  lemma BarrierShift(signals: seq<nat>, k: nat, orType: bool, completion: nat)
    requires |signals| > MAX_DEPS
    ensures BarrierAt(signals, k + 1, orType, completion) == BarrierAt(signals[MAX_DEPS..], k, orType, completion)
  {
    CountStep(|signals|);
    assert MAX_DEPS * (k + 1) == MAX_DEPS * k + MAX_DEPS;
    var a, b := DepSlots(signals, k + 1), DepSlots(signals[MAX_DEPS..], k);
    forall j | 0 <= j < MAX_DEPS
      ensures a[j] == b[j]
    {
      assert a[j] == DepSlot(signals, MAX_DEPS * (k + 1) + j);
      assert b[j] == DepSlot(signals[MAX_DEPS..], MAX_DEPS * k + j);
    }
    assert a == b;
  }

  lemma RowTail(signals: seq<nat>, orType: bool, completion: nat)
    requires |signals| > MAX_DEPS
    ensures BarrierRow(signals, PacketCount(|signals|), orType, completion) ==
            [BarrierAt(signals, 0, orType, completion)] +
            BarrierRow(signals[MAX_DEPS..], PacketCount(|signals| - MAX_DEPS), orType, completion)
  {
    hide BarrierAt;
    CountStep(|signals|);
    forall k | 0 < k < PacketCount(|signals|)
      ensures BarrierAt(signals, k, orType, completion) == BarrierAt(signals[MAX_DEPS..], k - 1, orType, completion)
    {
      BarrierShift(signals, k - 1, orType, completion);
    }
  }

  lemma AbstractCons(p: AqlPacket, row: seq<AqlPacket>)
    ensures AbstractRow([p] + row) == [Abstract(p)] + AbstractRow(row)
  {
    hide Abstract;
  }

  /** The first packet of a row that goes on, or the only one. */
  lemma FirstAsBarrier(signals: seq<nat>, orType: bool, completion: nat)
    requires (forall i :: 0 <= i < |signals| ==> signals[i] != 0) && |signals| > 0
    ensures Abstract(BarrierAt(signals, 0, orType, completion)) ==
            if |signals| > MAX_DEPS then BarrierMode.Barrier(signals[..MAX_DEPS], false, false)
            else BarrierMode.Barrier(signals, true, completion != 0)
  {
    DepsOfPacket(signals, 0);
    hide DepSlot, DepSlots, NonZero;
    CountBounds(|signals|);
  }

  /** The packets on the ring are the barriers that the scheduler's model puts on its queues. */
  lemma {:induction false} RowAsBarriers(signals: seq<nat>, orType: bool, completion: nat)
    requires (forall i :: 0 <= i < |signals| ==> signals[i] != 0) && |signals| > 0
    ensures AbstractRow(BarrierRow(signals, PacketCount(|signals|), orType, completion)) ==
            BarrierMode.BarrierPackets(signals, completion != 0)
    decreases |signals|
  {
    hide BarrierRow, AbstractRow, Abstract, BarrierAt;
    FirstAsBarrier(signals, orType, completion);
    if |signals| > MAX_DEPS {
      RowTail(signals, orType, completion);
      RowAsBarriers(signals[MAX_DEPS..], orType, completion);
      AbstractCons(BarrierAt(signals, 0, orType, completion),
                   BarrierRow(signals[MAX_DEPS..], PacketCount(|signals| - MAX_DEPS), orType, completion));
    } else {
      OnlyPacket(signals, orType, completion);
    }
  }

  lemma OnlyPacket(signals: seq<nat>, orType: bool, completion: nat)
    requires 0 < |signals| <= MAX_DEPS
    ensures AbstractRow(BarrierRow(signals, PacketCount(|signals|), orType, completion)) ==
            [Abstract(BarrierAt(signals, 0, orType, completion))]
  {
    hide Abstract, BarrierAt;
    CountBounds(|signals|);
  }

  lemma PacketIs(signals: seq<nat>, k: nat, orType: bool, completion: nat, deps: seq<nat>)
    requires |deps| == MAX_DEPS && forall j :: 0 <= j < MAX_DEPS ==> deps[j] == DepSlot(signals, MAX_DEPS * k + j)
    ensures var last := k == PacketCount(|signals|) - 1;
            BarrierAql(orType, last, deps, if last then completion else 0) == BarrierAt(signals, k, orType, completion)
  {
    hide DepSlot, PacketCount;
    assert deps == DepSlots(signals, k);
  }

  // ---------------------------------------------------------------- the loops

  class AqlQueue {
    const slots: array<Option<AqlPacket>>
    var writeIndex: nat
    var readIndex: nat
    var doorbell: nat
    ghost var written: seq<Option<AqlPacket>>
    ghost var retired: seq<AqlPacket>

    ghost function Shared(): Ring<AqlPacket>
      reads this, slots
    {
      Ring(slots.Length, writeIndex, readIndex, slots[..], written, retired)
    }

    ghost predicate Valid()
      reads this, slots
    {
      Inv(Shared())
    }

    constructor (size: nat)
      requires PowerOfTwo(size)
      ensures Valid() && Initial(Shared()) && slots.Length == size && fresh(slots)
    {
      slots := new Option<AqlPacket>[size](_ => None);
      writeIndex, readIndex, doorbell, written, retired := 0, 0, 0, [], [];
    }

    /** `hsa_queue_add_write_index_relaxed(queue, 1)`. */
    method AddWriteIndex() returns (index: nat)
      requires Valid()
      modifies this`writeIndex, this`written
      ensures Valid() && index == old(writeIndex) && Shared() == Step(old(Shared()), Reserve)
    {
      StepKeeps(Shared(), Reserve);
      index := writeIndex;
      writeIndex, written := writeIndex + 1, written + [None];
    }

    method StorePacket(index: nat, packet: AqlPacket)
      requires Valid() && CanStore(Shared(), index)
      modifies slots, this`written
      ensures Valid() && Shared() == Step(old(Shared()), Store(index, packet))
    {
      StepKeeps(Shared(), Store(index, packet));
      slots[ProducerSlot(index, slots.Length)] := Some(packet);
      written := written[index := Some(packet)];
    }

    /** The packet processor takes the packet at the read index. */
    method RetireHead()
      requires Valid() && CanRetire(Shared())
      modifies slots, this`readIndex, this`retired
      ensures Valid() && Shared() == Step(old(Shared()), Retire)
    {
      StepKeeps(Shared(), Retire);
      var k := readIndex % slots.Length;
      retired := retired + [slots[k].value];
      slots[k] := None;
      readIndex := readIndex + 1;
    }

    /**
      The wait for a slot, during which the processor retires what it can.  It ends with room, or the processor
      has come to a packet somebody has reserved and not stored.
     */
    method AwaitRoom(index: nat) returns (room: bool)
      requires Valid() && index < writeIndex
      modifies slots, this`readIndex, this`retired
      ensures Valid() && old(readIndex) <= readIndex && room == (index - readIndex < slots.Length)
      ensures !room ==> readIndex < |written| && written[readIndex].None?
    {
      while index - readIndex >= slots.Length && slots[readIndex % slots.Length].Some?
        invariant Valid() && old(readIndex) <= readIndex
        invariant writeIndex == old(writeIndex) && written == old(written)
        decreases writeIndex - readIndex
      {
        RetireKeeps(Shared());
        RetireHead();
      }
      room := index - readIndex < slots.Length;
      assert slots[readIndex % slots.Length] == Pending(Shared(), readIndex);
    }

    /** The five dependency slots of one packet, from position from of the list. */
    static method FillDeps(signals: seq<nat>, from: nat) returns (deps: seq<nat>, next: nat)
      requires from <= |signals|
      ensures |deps| == MAX_DEPS && forall j :: 0 <= j < MAX_DEPS ==> deps[j] == DepSlot(signals, from + j)
      ensures next == Min(from + MAX_DEPS, |signals|)
    {
      deps := seq(MAX_DEPS, _ => 0);
      next := from;
      var remaining := |signals| - from;
      for j := 0 to MAX_DEPS
        invariant |deps| == MAX_DEPS && next == Min(from + j, |signals|) && remaining == |signals| - next
        invariant forall m :: 0 <= m < j ==> deps[m] == DepSlot(signals, from + m)
        invariant forall m :: j <= m < MAX_DEPS ==> deps[m] == 0
      {
        if remaining > 0 {
          deps := deps[j := signals[next]];
          next, remaining := next + 1, remaining - 1;
        }
      }
    }

    /** Reserve an index, wait for room and store one packet there. */
    method Enqueue(packet: AqlPacket) returns (done: bool)
      requires Valid()
      modifies this, slots
      ensures Valid() && done == (old(writeIndex) - readIndex < slots.Length) && doorbell == old(doorbell)
      ensures written == old(written) + [if done then Some(packet) else None]
      ensures !done ==> readIndex < |written| && written[readIndex].None?
    {
      var index := AddWriteIndex();
      done := AwaitRoom(index);
      if done {
        SameSlot(index, slots.Length);
        StorePacket(index, packet);
      }
    }

    /**
      `enqueue_barrier_async`: the packets are the row specified above, stored at consecutive indices, unless the
      ring stays full because of another producer's unstored packet.
     */
    method EnqueueBarrierAsync(signals: seq<nat>, orType: bool, completion: nat) returns (done: bool, count: nat)
      requires Valid()
      modifies this, slots
      ensures Valid() && count <= (|signals| + 4) / 5 && (done ==> count == (|signals| + 4) / 5)
      ensures written ==
              old(written) + Stored(BarrierRow(signals, count, orType, completion)) + if done then [] else [None]
      ensures doorbell == if done && count > 0 then old(writeIndex) + count - 1 else old(doorbell)
      ensures !done ==> readIndex < |written| && written[readIndex].None?
    {
      var packets := (|signals| + MAX_DEPS - 1) / MAX_DEPS;
      var next := 0;
      count, done := 0, true;
      CountBounds(|signals|);
      assert packets == PacketCount(|signals|) == (|signals| + 4) / 5;
      assert Stored(BarrierRow(signals, 0, orType, completion)) == [];
      hide Inv, Stored, BarrierRow, BarrierAt, DepSlot, DepSlots, PacketCount, HasRoom;
      while count < packets
        invariant Valid() && count <= packets && next == Min(MAX_DEPS * count, |signals|)
        invariant written == old(written) + Stored(BarrierRow(signals, count, orType, completion))
        invariant doorbell == if count == packets > 0 then old(writeIndex) + count - 1 else old(doorbell)
      {
        var last := count == packets - 1;
        var deps, position := FillDeps(signals, next);
        var packet := BarrierAql(orType, last, deps, if last then completion else 0);
        PacketIs(signals, count, orType, completion, deps);
        done := Enqueue(packet);
        if !done {
          return;
        }
        RowGrows(signals, count, orType, completion);
        next, count := position, count + 1;
        if last {
          doorbell := writeIndex - 1;
        }
      }
    }
  }

  ghost function Stored(row: seq<AqlPacket>): (r: seq<Option<AqlPacket>>)
    ensures |r| == |row|
  {
    seq(|row|, k requires 0 <= k < |row| => Some(row[k]))
  }

  lemma RowGrows(signals: seq<nat>, n: nat, orType: bool, completion: nat)
    ensures Stored(BarrierRow(signals, n + 1, orType, completion)) ==
            Stored(BarrierRow(signals, n, orType, completion)) + [Some(BarrierAt(signals, n, orType, completion))]
  {
  }
}
