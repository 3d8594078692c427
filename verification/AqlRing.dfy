/**
  A user-mode queue: a ring of packets which any number of producers reserve and fill, and one packet processor
  empties in order.
 */
module AqlRing {
  import opened Wrappers
  import opened Bits

  /** written[i] is the packet of index i once its producer has stored it; retired lists what was processed. */
  datatype Ring<!P> = Ring(
    size: nat, writeIndex: nat, readIndex: nat, slots: seq<Option<P>>, written: seq<Option<P>>, retired: seq<P>)

  /** A producer takes the next index, stores a packet at an index it took, or the processor retires the head. */
  datatype RingEvent<!P> = Reserve | Store(index: nat, packet: P) | Retire

  function ProducerSlot(index: nat, size: nat): nat
    requires size > 0
  {
    BitAnd(index, size - 1)
  }

  function ConsumerSlot(index: nat, size: nat): nat
    requires size > 0
  {
    index % size
  }

  predicate HasRoom(r: Ring, index: nat) {
    index - r.readIndex < r.size
  }

  ghost predicate CanStore<P>(r: Ring<P>, index: nat) {
    && r.size > 0 && ProducerSlot(index, r.size) < |r.slots| && index < |r.written| && r.written[index].None?
    && HasRoom(r, index)
  }

  ghost function DoStore<P>(r: Ring<P>, index: nat, packet: P): Ring<P>
    requires CanStore(r, index)
  {
    r.(slots := r.slots[ProducerSlot(index, r.size) := Some(packet)], written := r.written[index := Some(packet)])
  }

  ghost predicate CanRetire<P>(r: Ring<P>) {
    r.size > 0 && ConsumerSlot(r.readIndex, r.size) < |r.slots| && r.slots[ConsumerSlot(r.readIndex, r.size)].Some?
  }

  ghost function DoRetire<P>(r: Ring<P>): Ring<P>
    requires CanRetire(r)
  {
    var k := ConsumerSlot(r.readIndex, r.size);
    r.(slots := r.slots[k := None], readIndex := r.readIndex + 1, retired := r.retired + [r.slots[k].value])
  }

  ghost predicate Enabled<P>(r: Ring<P>, e: RingEvent<P>) {
    match e
    case Reserve => true
    case Store(index, _) => CanStore(r, index)
    case Retire => CanRetire(r)
  }

  ghost function Step<P>(r: Ring<P>, e: RingEvent<P>): Ring<P>
    requires Enabled(r, e)
  {
    match e
    case Reserve => r.(writeIndex := r.writeIndex + 1, written := r.written + [None])
    case Store(index, packet) => DoStore(r, index, packet)
    case Retire => DoRetire(r)
  }

  ghost predicate Initial<P>(r: Ring<P>) {
    && PowerOfTwo(r.size) && r.writeIndex == 0 && r.readIndex == 0 && r.written == [] && r.retired == []
    && |r.slots| == r.size && forall k :: 0 <= k < r.size ==> r.slots[k] == None
  }

  ghost predicate Possible<P>(r: Ring<P>, es: seq<RingEvent<P>>)
    decreases |es|
  {
    |es| > 0 ==> Enabled(r, es[0]) && Possible(Step(r, es[0]), es[1..])
  }

  ghost function Exec<P>(r: Ring<P>, es: seq<RingEvent<P>>): Ring<P>
    requires Possible(r, es)
    decreases |es|
  {
    if |es| == 0 then r else Exec(Step(r, es[0]), es[1..])
  }

  // ---------------------------------------------------------------- the invariant

  /** What the ring should hold for index i. */
  function Pending<P>(r: Ring<P>, i: nat): Option<P> {
    if i < |r.written| then r.written[i] else None
  }

  /** Slots are exactly the window of the next size indices; what was retired is what was written, in order. */
  ghost predicate Inv<P>(r: Ring<P>) {
    && PowerOfTwo(r.size) && |r.slots| == r.size && |r.written| == r.writeIndex && r.readIndex <= r.writeIndex
    && |r.retired| == r.readIndex
    && (forall i :: 0 <= i < r.readIndex ==> r.written[i] == Some(r.retired[i]))
    && (forall i :: r.readIndex <= i < r.readIndex + r.size ==> r.slots[i % r.size] == Pending(r, i))
    && (forall i :: r.readIndex + r.size <= i < r.writeIndex ==> r.written[i].None?)
  }

  /** Two indices less than a ring apart have different slots. */
  lemma SlotsApart(i: nat, j: nat, size: nat)
    requires size > 0 && i < j < i + size
    ensures i % size != j % size
  {
    if i % size == j % size {
      var a, b, r := i / size, j / size, i % size;
      assert i == a * size + r && j == b * size + r;
      assert (b - a) * size == j - i;
      MultipleApart(b - a, size);
    }
  }

  /** The producer's mask and the consumer's remainder name the same slot. */
  lemma SameSlot(index: nat, size: nat)
    requires PowerOfTwo(size)
    ensures size > 0 && BitAnd(index, size - 1) == index % size < size
    ensures ProducerSlot(index, size) == ConsumerSlot(index, size) < size
  {
    MaskOfSize(index, size);
  }

  lemma InitialHolds<P>(r: Ring<P>)
    requires Initial(r)
    ensures Inv(r)
  {
  }

  lemma StoreKeeps<P>(r: Ring<P>, index: nat, packet: P)
    requires Inv(r) && CanStore(r, index)
    ensures Inv(DoStore(r, index, packet))
    ensures r.readIndex <= index && r.slots[ProducerSlot(index, r.size)].None?
  {
    var r' := DoStore(r, index, packet);
    SameSlot(index, r.size);
    hide BitAnd, PowerOfTwo;
    forall i | r.readIndex <= i < r.readIndex + r.size
      ensures r'.slots[i % r.size] == Pending(r', i)
    {
      if i < index { SlotsApart(i, index, r.size); }
      if index < i { SlotsApart(index, i, r.size); }
    }
  }

  lemma RetireKeeps<P>(r: Ring<P>)
    requires Inv(r) && CanRetire(r)
    ensures Inv(DoRetire(r)) && r.readIndex < r.writeIndex
    ensures DoRetire(r).retired == r.retired + [r.written[r.readIndex].value]
  {
    var r' := DoRetire(r);
    hide BitAnd, PowerOfTwo;
    forall i | r'.readIndex <= i < r'.readIndex + r.size
      ensures r'.slots[i % r.size] == Pending(r', i)
    {
      if i < r.readIndex + r.size {
        SlotsApart(r.readIndex, i, r.size);
      } else {
        Wraps(r.readIndex, r.size);
      }
    }
  }

  lemma Wraps(i: nat, size: nat)
    requires size > 0
    ensures (i + size) % size == i % size
  {
    DivModUnique(i + size, size, i / size + 1, i % size);
  }

  lemma StepKeeps<P>(r: Ring<P>, e: RingEvent<P>)
    requires Inv(r) && Enabled(r, e)
    ensures Inv(Step(r, e))
  {
    match e
    case Reserve =>
    case Store(index, packet) => StoreKeeps(r, index, packet);
    case Retire => RetireKeeps(r);
  }

  lemma {:induction false} RunKeeps<P>(r: Ring<P>, es: seq<RingEvent<P>>)
    requires Inv(r) && Possible(r, es)
    ensures Inv(Exec(r, es)) && Exec(r, es).size == r.size
    decreases |es|
  {
    if |es| > 0 {
      StepKeeps(r, es[0]);
      RunKeeps(Step(r, es[0]), es[1..]);
    }
  }

  // ---------------------------------------------------------------- the theorems

  /** A producer that found room stores into an empty slot: every earlier packet of that slot has been retired. */
  lemma StoresIntoEmptySlot<P>(r: Ring<P>, es: seq<RingEvent<P>>, index: nat, i: nat)
    requires Initial(r) && Possible(r, es) && CanStore(Exec(r, es), index)
    ensures Exec(r, es).size == r.size && Exec(r, es).slots[ProducerSlot(index, r.size)].None?
    ensures i < index && ProducerSlot(i, r.size) == ProducerSlot(index, r.size) ==> i < Exec(r, es).readIndex
  {
    var s := Exec(r, es);
    InitialHolds(r);
    RunKeeps(r, es);
    SameSlot(index, r.size);
    SameSlot(i, r.size);
    hide BitAnd, PowerOfTwo;
    assert s.slots[index % r.size] == Pending(s, index) by { AtOrAhead(s, index); }
    if s.readIndex <= i < index { SlotsApart(i, index, r.size); }
  }

  /** An index that has not been stored yet has not been retired either. */
  lemma AtOrAhead<P>(r: Ring<P>, index: nat)
    requires Inv(r) && index < |r.written| && r.written[index].None?
    ensures r.readIndex <= index
  {
  }

  /** Packets that are stored and not retired are in slots of their own, as their producers left them. */
  lemma StoredAreApart<P>(r: Ring<P>, es: seq<RingEvent<P>>, i: nat, j: nat)
    requires Initial(r) && Possible(r, es) && Exec(r, es).readIndex <= i < j < |Exec(r, es).written|
    requires Exec(r, es).written[i].Some? && Exec(r, es).written[j].Some?
    ensures ProducerSlot(i, r.size) != ProducerSlot(j, r.size)
    ensures ProducerSlot(i, r.size) < |Exec(r, es).slots|
    ensures Exec(r, es).slots[ProducerSlot(i, r.size)] == Exec(r, es).written[i]
  {
    var s := Exec(r, es);
    InitialHolds(r);
    RunKeeps(r, es);
    SameSlot(i, r.size);
    SameSlot(j, r.size);
    hide BitAnd, PowerOfTwo;
    SlotsApart(i, j, r.size);
    assert s.slots[i % r.size] == Pending(s, i);
  }

  /** The processor sees the packets in index order, each exactly as stored, and may go on iff the next is stored. */
  lemma RetiresInOrder<P>(r: Ring<P>, es: seq<RingEvent<P>>, i: nat)
    requires Initial(r) && Possible(r, es)
    ensures |Exec(r, es).retired| == Exec(r, es).readIndex <= |Exec(r, es).written|
    ensures i < Exec(r, es).readIndex ==> Exec(r, es).written[i] == Some(Exec(r, es).retired[i])
    ensures CanRetire(Exec(r, es)) <==>
            Exec(r, es).readIndex < |Exec(r, es).written| && Exec(r, es).written[Exec(r, es).readIndex].Some?
  {
    var s := Exec(r, es);
    InitialHolds(r);
    RunKeeps(r, es);
    assert s.slots[s.readIndex % s.size] == Pending(s, s.readIndex);
  }

  /** What is stored stays stored, and room once seen stays, so a producer need look only once. */
  ghost predicate Onward<P>(r: Ring<P>, s: Ring<P>) {
    && s.size == r.size && r.readIndex <= s.readIndex && |r.written| <= |s.written|
    && (forall i :: 0 <= i < |r.written| && r.written[i].Some? ==> s.written[i] == r.written[i])
    && forall i: nat :: HasRoom(r, i) ==> HasRoom(s, i)
  }

  lemma StepOnward<P>(r: Ring<P>, e: RingEvent<P>)
    requires Enabled(r, e)
    ensures Onward(r, Step(r, e))
  {
  }

  lemma {:induction false} RunOnward<P>(r: Ring<P>, es: seq<RingEvent<P>>)
    requires Possible(r, es)
    ensures Onward(r, Exec(r, es))
    decreases |es|
  {
    if |es| > 0 {
      StepOnward(r, es[0]);
      RunOnward(Step(r, es[0]), es[1..]);
    }
  }
}
