/** `ATLPointerTracker`: an ordered map from memory ranges to buffers, searched by addresses inside them. */
module PointerTracker {
  import opened Wrappers

  /** `ATLMemoryRange`: both ends are inside. */
  datatype Range = Range(base: nat, end: nat)

  /** The range of sizeBytes bytes from bp on. */
  function RangeOf(bp: nat, sizeBytes: nat): Range
    requires sizeBytes > 0
  {
    Range(bp, bp + sizeBytes - 1)
  }

  /** `ATLMemoryRangeCompare`: wholly below. */
  predicate Less(a: Range, b: Range) {
    a.end < b.base
  }

  predicate Inside(p: nat, r: Range) {
    r.base <= p <= r.end
  }

  predicate Overlap(a: Range, b: Range) {
    !Less(a, b) && !Less(b, a)
  }

  datatype Entry = Entry(range: Range, data: nat)

  /** The map, as a search tree whose comparison is Less. */
  datatype Tree = Leaf | Node(left: Tree, entry: Entry, right: Tree)

  ghost function Entries(t: Tree): set<Entry> {
    match t
    case Leaf => {}
    case Node(l, e, r) => Entries(l) + {e} + Entries(r)
  }

  /** Everything to the left of a node is below it, everything to the right above it. */
  ghost predicate Ordered(t: Tree) {
    match t
    case Leaf => true
    case Node(l, e, r) =>
      && Ordered(l) && Ordered(r) && e.range.base <= e.range.end
      && (forall x :: x in Entries(l) ==> Less(x.range, e.range))
      && (forall x :: x in Entries(r) ==> Less(e.range, x.range))
  }

  // ---------------------------------------------------------------- the map's operations

  /** The data of an entry that is neither below nor above the key. */
  function Lookup(t: Tree, key: Range): Option<nat> {
    match t
    case Leaf => None
    case Node(l, e, r) =>
      if Less(key, e.range) then Lookup(l, key) else if Less(e.range, key) then Lookup(r, key) else Some(e.data)
  }

  /** `map::insert`: nothing happens when there is such an entry. */
  function Add(t: Tree, added: Entry): Tree {
    match t
    case Leaf => Node(Leaf, added, Leaf)
    case Node(l, e, r) =>
      if Less(added.range, e.range) then Node(Add(l, added), e, r)
      else if Less(e.range, added.range) then Node(l, e, Add(r, added))
      else t
  }

  function Least(t: Tree): Entry
    requires t.Node?
  {
    if t.left.Leaf? then t.entry else Least(t.left)
  }

  function WithoutLeast(t: Tree): Tree
    requires t.Node?
  {
    if t.left.Leaf? then t.right else Node(WithoutLeast(t.left), t.entry, t.right)
  }

  function Join(l: Tree, r: Tree): Tree {
    if r.Leaf? then l else Node(l, Least(r), WithoutLeast(r))
  }

  /** `map::erase` by key. */
  function Erase(t: Tree, key: Range): Tree {
    match t
    case Leaf => Leaf
    case Node(l, e, r) =>
      if Less(key, e.range) then Node(Erase(l, key), e, r)
      else if Less(e.range, key) then Node(l, e, Erase(r, key))
      else Join(l, r)
  }

  // ---------------------------------------------------------------- the naive tracker

  /** A buffer as it was inserted: `size` bytes from `pointer` on. */
  datatype Buffer = Buffer(pointer: nat, size: nat, data: nat)

  predicate Has(b: Buffer, p: nat) {
    b.pointer <= p < b.pointer + b.size
  }

  /** Neither ends before the other starts. */
  predicate Meet(a: Buffer, b: Buffer) {
    a.pointer < b.pointer + b.size && b.pointer < a.pointer + a.size
  }

  /** A set of live buffers; a buffer that meets a live one is not added. */
  ghost function NaiveInsert(live: set<Buffer>, added: Buffer): set<Buffer> {
    if exists b :: b in live && Meet(b, added) then live else live + {added}
  }

  /** Whatever contains the address goes. */
  ghost function NaiveRemove(live: set<Buffer>, p: nat): set<Buffer> {
    set b | b in live && !Has(b, p)
  }

  /** The answer of a scan over all live buffers. */
  ghost predicate NaiveFind(live: set<Buffer>, p: nat, answer: Option<nat>) {
    match answer
    case None => forall b :: b in live ==> !Has(b, p)
    case Some(data) =>
      exists b :: b in live && Has(b, p) && b.data == data && forall x :: x in live && Has(x, p) ==> x == b
  }

  // ---------------------------------------------------------------- the tree holds the buffers

  function EntryOf(b: Buffer): Entry
    requires b.size > 0
  {
    Entry(RangeOf(b.pointer, b.size), b.data)
  }

  ghost predicate AllSized(live: set<Buffer>) {
    forall b :: b in live ==> b.size > 0
  }

  ghost predicate Tracks(t: Tree, live: set<Buffer>) {
    && Ordered(t) && AllSized(live)
    && (forall b :: b in live ==> EntryOf(b) in Entries(t))
    && forall e :: e in Entries(t) ==> exists b :: b in live && EntryOf(b) == e
  }

  // ---------------------------------------------------------------- the tree's operations on its entries

  /** An entry that overlaps another is not added. */
  ghost function EntriesInsert(entries: set<Entry>, added: Entry): set<Entry> {
    if exists e :: e in entries && Overlap(e.range, added.range) then entries else entries + {added}
  }

  ghost function EntriesRemove(entries: set<Entry>, p: nat): set<Entry> {
    set e | e in entries && !Inside(p, e.range)
  }

  ghost predicate Answers(entries: set<Entry>, p: nat, answer: Option<nat>) {
    match answer
    case None => forall e :: e in entries ==> !Inside(p, e.range)
    case Some(data) =>
      exists e :: e in entries && Inside(p, e.range) && e.data == data &&
        forall x :: x in entries && Inside(p, x.range) ==> x == e
  }


  /** Buffers that do not overlap the new one do not matter to its insertion. */
  lemma InsertApart(a: set<Entry>, b: set<Entry>, added: Entry)
    requires forall x :: x in b ==> !Overlap(x.range, added.range)
    ensures EntriesInsert(a + b, added) == EntriesInsert(a, added) + b
  {
    if e :| e in a && Overlap(e.range, added.range) {
      assert e in a + b;
    } else {
      assert a + b + {added} == a + {added} + b;
    }
  }

  lemma RemoveApart(a: set<Entry>, b: set<Entry>, p: nat)
    requires forall x :: x in b ==> !Inside(p, x.range)
    ensures EntriesRemove(a + b, p) == EntriesRemove(a, p) + b
  {
  }

  lemma {:induction false} AddRefines(t: Tree, added: Entry)
    requires Ordered(t) && added.range.base <= added.range.end
    ensures Ordered(Add(t, added)) && Entries(Add(t, added)) == EntriesInsert(Entries(t), added)
  {
    match t
    case Leaf =>
    case Node(l, e, r) =>
      if Less(added.range, e.range) {
        AddRefines(l, added);
        AddLeft(l, e, r, added);
      } else if Less(e.range, added.range) {
        AddRefines(r, added);
        AddRight(l, e, r, added);
      } else {
        assert e in Entries(t);
      }
  }

  lemma {:induction false} AddLeft(l: Tree, e: Entry, r: Tree, added: Entry)
    requires Ordered(Node(l, e, r)) && added.range.base <= added.range.end && Less(added.range, e.range)
    requires Ordered(Add(l, added)) && Entries(Add(l, added)) == EntriesInsert(Entries(l), added)
    ensures Ordered(Node(Add(l, added), e, r))
    ensures Entries(Node(Add(l, added), e, r)) == EntriesInsert(Entries(Node(l, e, r)), added)
  {
    hide Add;
    assert Entries(Node(l, e, r)) == Entries(l) + ({e} + Entries(r));
    InsertApart(Entries(l), {e} + Entries(r), added);
  }

  lemma {:induction false} AddRight(l: Tree, e: Entry, r: Tree, added: Entry)
    requires Ordered(Node(l, e, r)) && added.range.base <= added.range.end && Less(e.range, added.range)
    requires Ordered(Add(r, added)) && Entries(Add(r, added)) == EntriesInsert(Entries(r), added)
    ensures Ordered(Node(l, e, Add(r, added)))
    ensures Entries(Node(l, e, Add(r, added))) == EntriesInsert(Entries(Node(l, e, r)), added)
  {
    hide Add;
    assert Entries(Node(l, e, r)) == Entries(r) + (Entries(l) + {e});
    InsertApart(Entries(r), Entries(l) + {e}, added);
  }

  lemma {:induction false} LeastSplits(t: Tree)
    requires Ordered(t) && t.Node?
    ensures Ordered(WithoutLeast(t)) && Entries(t) == Entries(WithoutLeast(t)) + {Least(t)}
    ensures Least(t).range.base <= Least(t).range.end
    ensures forall x :: x in Entries(WithoutLeast(t)) ==> Less(Least(t).range, x.range)
  {
    if t.left.Node? { LeastSplits(t.left); }
  }

  lemma {:induction false} JoinKeeps(l: Tree, r: Tree)
    requires Ordered(l) && Ordered(r)
    requires forall x, y :: x in Entries(l) && y in Entries(r) ==> Less(x.range, y.range)
    ensures Ordered(Join(l, r)) && Entries(Join(l, r)) == Entries(l) + Entries(r)
  {
    if r.Node? {
      LeastSplits(r);
      assert Least(r) in Entries(r);
    }
  }

  lemma {:induction false} EraseRefines(t: Tree, p: nat)
    requires Ordered(t)
    ensures Ordered(Erase(t, RangeOf(p, 1))) && Entries(Erase(t, RangeOf(p, 1))) == EntriesRemove(Entries(t), p)
  {
    match t
    case Leaf =>
    case Node(l, e, r) =>
      hide Join, EntriesRemove;
      if Less(RangeOf(p, 1), e.range) {
        EraseRefines(l, p);
        EraseLeft(l, e, r, Erase(l, RangeOf(p, 1)), p);
      } else if Less(e.range, RangeOf(p, 1)) {
        EraseRefines(r, p);
        EraseRight(l, e, r, Erase(r, RangeOf(p, 1)), p);
      } else {
        EraseHere(l, e, r, p);
      }
  }

  lemma {:induction false} EraseLeft(l: Tree, e: Entry, r: Tree, l': Tree, p: nat)
    requires Ordered(Node(l, e, r)) && Less(RangeOf(p, 1), e.range)
    requires Ordered(l') && Entries(l') == EntriesRemove(Entries(l), p)
    ensures Ordered(Node(l', e, r)) && Entries(Node(l', e, r)) == EntriesRemove(Entries(Node(l, e, r)), p)
  {
    assert Entries(Node(l, e, r)) == Entries(l) + ({e} + Entries(r));
    RemoveApart(Entries(l), {e} + Entries(r), p);
  }

  lemma {:induction false} EraseRight(l: Tree, e: Entry, r: Tree, r': Tree, p: nat)
    requires Ordered(Node(l, e, r)) && Less(e.range, RangeOf(p, 1))
    requires Ordered(r') && Entries(r') == EntriesRemove(Entries(r), p)
    ensures Ordered(Node(l, e, r')) && Entries(Node(l, e, r')) == EntriesRemove(Entries(Node(l, e, r)), p)
  {
    assert Entries(Node(l, e, r)) == Entries(r) + (Entries(l) + {e});
    RemoveApart(Entries(r), Entries(l) + {e}, p);
  }

  lemma {:induction false} EraseHere(l: Tree, e: Entry, r: Tree, p: nat)
    requires Ordered(Node(l, e, r)) && Inside(p, e.range)
    ensures Ordered(Join(l, r)) && Entries(Join(l, r)) == EntriesRemove(Entries(Node(l, e, r)), p)
  {
    JoinKeeps(l, r);
    hide Join;
    assert Entries(Node(l, e, r)) == {e} + (Entries(l) + Entries(r));
    RemoveApart({e}, Entries(l) + Entries(r), p);
    assert EntriesRemove({e}, p) == {};
  }

  lemma {:induction false} LookupAgrees(t: Tree, p: nat)
    requires Ordered(t)
    ensures Answers(Entries(t), p, Lookup(t, RangeOf(p, 1)))
  {
    match t
    case Leaf =>
    case Node(l, e, r) =>
      if Less(RangeOf(p, 1), e.range) {
        LookupAgrees(l, p);
      } else if Less(e.range, RangeOf(p, 1)) {
        LookupAgrees(r, p);
      } else {
        assert e in Entries(t);
      }
  }

  // ---------------------------------------------------------------- the tree does as the set of buffers

  /** find: a look-up with the range of one byte. */
  function FindIn(t: Tree, p: nat): Option<nat> {
    Lookup(t, RangeOf(p, 1))
  }

  /** A range and its buffer have the same addresses, and ranges overlap exactly where buffers meet. */
  lemma SameAddresses(a: Buffer, b: Buffer, p: nat)
    requires a.size > 0 && b.size > 0
    ensures Inside(p, EntryOf(a).range) <==> Has(a, p)
    ensures Overlap(EntryOf(a).range, EntryOf(b).range) <==> Meet(a, b)
    ensures EntryOf(a) == EntryOf(b) ==> a == b
  {
  }

  lemma InsertTracks(t: Tree, live: set<Buffer>, added: Buffer)
    requires Tracks(t, live) && added.size > 0
    ensures Tracks(Add(t, EntryOf(added)), NaiveInsert(live, added))
  {
    AddRefines(t, EntryOf(added));
    if b :| b in live && Meet(b, added) {
      SameAddresses(b, added, 0);
      assert EntryOf(b) in Entries(t);
    } else {
      hide Ordered, Add, Entries, Overlap, Meet, EntryOf;
      forall e | e in Entries(t)
        ensures !Overlap(e.range, EntryOf(added).range)
      {
        var b :| b in live && EntryOf(b) == e;
        SameAddresses(b, added, 0);
      }
    }
  }

  lemma RemoveTracks(t: Tree, live: set<Buffer>, p: nat)
    requires Tracks(t, live)
    ensures Tracks(Erase(t, RangeOf(p, 1)), NaiveRemove(live, p))
  {
    EraseRefines(t, p);
    hide Ordered, Erase, Entries, Inside, Has, EntryOf;
    forall b | b in live
      ensures Inside(p, EntryOf(b).range) <==> Has(b, p)
    {
      SameAddresses(b, b, p);
    }
    var t' := Erase(t, RangeOf(p, 1));
    forall e | e in Entries(t')
      ensures exists b :: b in NaiveRemove(live, p) && EntryOf(b) == e
    {
      var b :| b in live && EntryOf(b) == e;
      assert b in NaiveRemove(live, p);
    }
  }

  lemma FindTracks(t: Tree, live: set<Buffer>, p: nat)
    requires Tracks(t, live)
    ensures NaiveFind(live, p, FindIn(t, p))
  {
    LookupAgrees(t, p);
    hide Ordered, Lookup, Entries, Inside, Has;
    forall a, b | a in live && b in live
      ensures (Inside(p, EntryOf(a).range) <==> Has(a, p)) && (EntryOf(a) == EntryOf(b) ==> a == b)
    {
      SameAddresses(a, b, p);
    }
    if FindIn(t, p).Some? {
      var e :| e in Entries(t) && Inside(p, e.range) && e.data == FindIn(t, p).value &&
        forall x :: x in Entries(t) && Inside(p, x.range) ==> x == e;
      var b :| b in live && EntryOf(b) == e;
      assert forall x :: x in live && Has(x, p) ==> EntryOf(x) in Entries(t) && Inside(p, EntryOf(x).range);
    }
  }

  // ---------------------------------------------------------------- any sequence of operations

  datatype Op = Insert(pointer: nat, size: nat, data: nat) | Remove(pointer: nat)

  predicate NonEmpty(op: Op) {
    op.Insert? ==> op.size > 0
  }

  function Apply(t: Tree, op: Op): Tree
    requires NonEmpty(op)
  {
    match op
    case Insert(p, size, data) => Add(t, Entry(RangeOf(p, size), data))
    case Remove(p) => Erase(t, RangeOf(p, 1))
  }

  ghost function NaiveApply(live: set<Buffer>, op: Op): set<Buffer> {
    match op
    case Insert(p, size, data) => NaiveInsert(live, Buffer(p, size, data))
    case Remove(p) => NaiveRemove(live, p)
  }

  ghost predicate AllNonEmpty(ops: seq<Op>) {
    forall i :: 0 <= i < |ops| ==> NonEmpty(ops[i])
  }

  function Run(ops: seq<Op>): Tree
    requires AllNonEmpty(ops)
  {
    if |ops| == 0 then Leaf else Apply(Run(ops[..|ops| - 1]), ops[|ops| - 1])
  }

  ghost function NaiveRun(ops: seq<Op>): set<Buffer> {
    if |ops| == 0 then {} else NaiveApply(NaiveRun(ops[..|ops| - 1]), ops[|ops| - 1])
  }

  lemma ApplyTracks(t: Tree, live: set<Buffer>, op: Op)
    requires Tracks(t, live) && NonEmpty(op)
    ensures Tracks(Apply(t, op), NaiveApply(live, op))
  {
    hide Tracks, Add, Erase, NaiveInsert, NaiveRemove;
    match op
    case Insert(p, size, data) => InsertTracks(t, live, Buffer(p, size, data));
    case Remove(p) => RemoveTracks(t, live, p);
  }

  lemma ApplyOrdered(t: Tree, op: Op)
    requires Ordered(t) && NonEmpty(op)
    ensures Ordered(Apply(t, op))
  {
    hide Add, Erase, EntriesInsert, EntriesRemove, Ordered, Entries;
    match op
    case Insert(p, size, data) => AddRefines(t, Entry(RangeOf(p, size), data));
    case Remove(p) => EraseRefines(t, p);
  }

  /** After any operations the tree is ordered and holds exactly the buffers that the naive tracker holds. */
  lemma {:induction false} RunRefines(ops: seq<Op>)
    requires AllNonEmpty(ops)
    ensures Tracks(Run(ops), NaiveRun(ops))
  {
    if |ops| > 0 {
      RunRefines(ops[..|ops| - 1]);
      hide Tracks;
      ApplyTracks(Run(ops[..|ops| - 1]), NaiveRun(ops[..|ops| - 1]), ops[|ops| - 1]);
    }
  }

  /** And find answers as the naive scan does: the one buffer with the address inside, or nothing. */
  lemma {:induction false} FindAgrees(ops: seq<Op>, p: nat)
    requires AllNonEmpty(ops)
    ensures NaiveFind(NaiveRun(ops), p, FindIn(Run(ops), p))
  {
    RunRefines(ops);
    hide Tracks;
    FindTracks(Run(ops), NaiveRun(ops), p);
  }

  /** No address from pointer to pointer + size - 1 is found. */
  ghost predicate Vacant(t: Tree, pointer: nat, size: nat) {
    forall q :: pointer <= q < pointer + size ==> FindIn(t, q) == None
  }

  /** The bytes are vacant exactly when no entry overlaps them. */
  lemma VacantIff(t: Tree, pointer: nat, size: nat)
    requires Ordered(t) && size > 0
    ensures Vacant(t, pointer, size) <==> forall e :: e in Entries(t) ==> !Overlap(e.range, RangeOf(pointer, size))
  {
    if x :| x in Entries(t) && Overlap(x.range, RangeOf(pointer, size)) {
      EntryBounds(t, x);
      var p := if x.range.base < pointer then pointer else x.range.base;
      hide Lookup, Ordered;
      LookupAgrees(t, p);
      assert FindIn(t, p) != None;
    } else {
      hide Lookup, Ordered;
      forall p | pointer <= p < pointer + size
        ensures FindIn(t, p) == None
      {
        LookupAgrees(t, p);
      }
    }
  }

  /**
    An insertion where all bytes are vacant makes exactly those bytes found; any other changes no answer at all.
   */
  lemma InsertFound(t: Tree, pointer: nat, size: nat, data: nat, q: nat)
    requires Ordered(t) && size > 0
    ensures FindIn(Apply(t, Insert(pointer, size, data)), q) ==
            if Vacant(t, pointer, size) && pointer <= q < pointer + size then Some(data) else FindIn(t, q)
  {
    var t', added := Apply(t, Insert(pointer, size, data)), Entry(RangeOf(pointer, size), data);
    AddRefines(t, added);
    LookupAgrees(t, q);
    LookupAgrees(t', q);
    VacantIff(t, pointer, size);
    hide Vacant, Lookup, Ordered, Overlap, Add;
    if !Vacant(t, pointer, size) {
      assert Entries(t') == Entries(t);
    } else {
      assert Entries(t') == Entries(t) + {added};
    }
  }

  ghost predicate SameEntry(t: Tree, p: nat, q: nat) {
    exists e :: e in Entries(t) && Inside(p, e.range) && Inside(q, e.range)
  }

  /** A removal makes the bytes of the one buffer with the address inside unknown, and changes no other answer. */
  lemma RemoveFound(t: Tree, p: nat, q: nat)
    requires Ordered(t)
    ensures FindIn(Apply(t, Remove(p)), q) == if SameEntry(t, p, q) then None else FindIn(t, q)
  {
    EraseRefines(t, p);
    LookupAgrees(t, q);
    LookupAgrees(Apply(t, Remove(p)), q);
  }

  /** The answer for a live buffer stays the same whatever is inserted and whatever other buffer is removed. */
  lemma FindIsStable(t: Tree, op: Op, p: nat)
    requires Ordered(t) && NonEmpty(op) && FindIn(t, p).Some?
    requires op.Remove? ==> !SameEntry(t, op.pointer, p)
    ensures FindIn(Apply(t, op), p) == FindIn(t, p)
  {
    match op
    case Insert(pointer, size, data) => InsertFound(t, pointer, size, data, p);
    case Remove(pointer) => RemoveFound(t, pointer, p);
  }

  lemma {:induction false} EntryBounds(t: Tree, e: Entry)
    requires Ordered(t) && e in Entries(t)
    ensures e.range.base <= e.range.end
  {
    if e != t.entry {
      EntryBounds(if e in Entries(t.left) then t.left else t.right, e);
    }
  }

  /** The ranges in the order of an iteration over the map. */
  function InOrder(t: Tree): seq<Entry> {
    match t
    case Leaf => []
    case Node(l, e, r) => InOrder(l) + [e] + InOrder(r)
  }

  lemma {:induction false} InOrderIsSorted(t: Tree)
    requires Ordered(t)
    ensures forall e :: e in InOrder(t) <==> e in Entries(t)
    ensures forall i, j :: 0 <= i < j < |InOrder(t)| ==> InOrder(t)[i].range.end < InOrder(t)[j].range.base
  {
    match t
    case Leaf =>
    case Node(l, e, r) =>
      InOrderIsSorted(l);
      InOrderIsSorted(r);
      SortedJoin(InOrder(l), e, InOrder(r));
  }

  lemma SortedJoin(a: seq<Entry>, e: Entry, b: seq<Entry>)
    requires forall i, j :: 0 <= i < j < |a| ==> Less(a[i].range, a[j].range)
    requires forall i, j :: 0 <= i < j < |b| ==> Less(b[i].range, b[j].range)
    requires forall x :: x in a ==> Less(x.range, e.range)
    requires e.range.base <= e.range.end && forall x :: x in b ==> Less(e.range, x.range)
    ensures forall i, j :: 0 <= i < j < |a + [e] + b| ==> Less((a + [e] + b)[i].range, (a + [e] + b)[j].range)
  {
    var all := a + [e] + b;
    forall i, j | 0 <= i < j < |all|
      ensures Less(all[i].range, all[j].range)
    {
      assert i < |a| ==> all[i] == a[i] && all[i] in a;
      assert j > |a| ==> all[j] == b[j - |a| - 1] && all[j] in b;
      assert i > |a| ==> all[i] == b[i - |a| - 1];
    }
  }

  // ---------------------------------------------------------------- the tracker object

  class Tracker {
    var tree: Tree
    ghost var live: set<Buffer>

    ghost predicate Valid()
      reads this
    {
      Tracks(tree, live)
    }

    constructor ()
      ensures Valid() && live == {}
    {
      tree, live := Leaf, {};
    }

    method Insert(pointer: nat, size: nat, data: nat)
      requires Valid() && size > 0
      modifies this
      ensures Valid() && live == NaiveInsert(old(live), Buffer(pointer, size, data))
      ensures tree == Apply(old(tree), Op.Insert(pointer, size, data))
      ensures forall q: nat {:trigger FindIn(tree, q)} ::
                FindIn(tree, q) ==
                if Vacant(old(tree), pointer, size) && pointer <= q < pointer + size then Some(data)
                else FindIn(old(tree), q)
    {
      forall q: nat
        ensures FindIn(Apply(tree, Op.Insert(pointer, size, data)), q) ==
                if Vacant(tree, pointer, size) && pointer <= q < pointer + size then Some(data) else FindIn(tree, q)
      {
        InsertFound(tree, pointer, size, data, q);
      }
      hide FindIn, Vacant, Tracks, Add, NaiveInsert;
      InsertTracks(tree, live, Buffer(pointer, size, data));
      live := NaiveInsert(live, Buffer(pointer, size, data));
      tree := Add(tree, Entry(RangeOf(pointer, size), data));
    }

    method Remove(pointer: nat)
      requires Valid()
      modifies this
      ensures Valid() && live == NaiveRemove(old(live), pointer)
      ensures tree == Apply(old(tree), Op.Remove(pointer))
    {
      RemoveTracks(tree, live, pointer);
      live := NaiveRemove(live, pointer);
      tree := Erase(tree, RangeOf(pointer, 1));
    }

    method Find(pointer: nat) returns (found: Option<nat>)
      requires Valid()
      ensures NaiveFind(live, pointer, found) && found == FindIn(tree, pointer)
    {
      FindTracks(tree, live, pointer);
      var t, key := tree, RangeOf(pointer, 1);
      while t.Node? && (Less(key, t.entry.range) || Less(t.entry.range, key))
        invariant Lookup(t, key) == Lookup(tree, key)
        decreases t
      {
        t := if Less(key, t.entry.range) then t.left else t.right;
      }
      found := if t.Node? then Some(t.entry.data) else None;
    }
  }
}
