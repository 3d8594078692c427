/**
  Where the arguments of a GPU kernel go: the layout loop over version 2 code-object metadata
  (`get_code_object_custom_metadata_v2`) and what it makes of hidden arguments.
 */
module KernargLayout {
  import opened Bits

  const WORD: nat := 64
  const IMPLICIT_SIZE: nat := 80

  /** An argument's size and alignment as the metadata has them, and whether it is a hidden one. */
  datatype ArgMD = ArgMD(size: nat, align: nat, hidden: bool)

  // ---------------------------------------------------------------- alignUp

  /** `value & ~(alignment - 1)` on 64-bit words. */
  function AlignDown(value: nat, alignment: nat): nat
    requires 0 < alignment <= Pow2(WORD)
  {
    BitAnd(value, Pow2(WORD) - 1 - (alignment - 1))
  }

  function AlignUp(value: nat, alignment: nat): nat
    requires 0 < alignment <= Pow2(WORD)
  {
    AlignDown((value + alignment - 1) % Pow2(WORD), alignment)
  }

  lemma {:induction false} AlignDownIs(value: nat, k: nat)
    requires k <= WORD && value < Pow2(WORD)
    ensures Pow2(k) <= Pow2(WORD) && AlignDown(value, Pow2(k)) == value - value % Pow2(k)
  {
    hide Pow2, BitAnd;
    Pow2Grows(k, WORD);
    HighMaskIs(value, k, WORD);
  }

  /** The least multiple of a power of two that is not below the value, as long as the word does not overflow. */
  lemma {:induction false} AlignUpIs(value: nat, k: nat)
    requires k <= WORD && value + Pow2(k) <= Pow2(WORD)
    ensures value <= AlignUp(value, Pow2(k)) < value + Pow2(k) && AlignUp(value, Pow2(k)) % Pow2(k) == 0
  {
    hide Pow2, AlignDown;
    var a := Pow2(k);
    var v := value + a - 1;
    SmallMod(v, Pow2(WORD));
    AlignDownIs(v, k);
    RoundedDown(v, a);
  }

  lemma RoundedDown(v: nat, a: nat)
    requires a > 0
    ensures v - v % a >= 0 && (v - v % a) % a == 0
  {
    var q := v / a;
    assert v == q * a + v % a;
    DivModUnique(q * a, a, q, 0);
  }

  // ---------------------------------------------------------------- the layout

  /** Sizes and alignments as 32-bit fields can hold them, alignments powers of two. */
  ghost predicate WellFormed(args: seq<ArgMD>) {
    |args| < 0x8000_0000 && forall i :: 0 <= i < |args| ==> FieldsOk(args[i])
  }

  ghost predicate FieldsOk(a: ArgMD) {
    a.size < 0x1_0000_0000 && exists k: nat :: k < 32 && a.align == Pow2(k)
  }

  /** Where the first n arguments end, with what precedes each to align it. */
  ghost function End(args: seq<ArgMD>, n: nat): nat
    requires n <= |args| && WellFormed(args)
    decreases n, 0
  {
    if n == 0 then 0 else Start(args, n - 1) + args[n - 1].size
  }

  ghost function Start(args: seq<ArgMD>, i: nat): nat
    requires i < |args| && WellFormed(args)
    decreases i, 1
  {
    AlignAllowed(args[i]);
    AlignUp(End(args, i), args[i].align)
  }

  lemma {:induction false} AlignAllowed(a: ArgMD)
    requires FieldsOk(a)
    ensures 0 < a.align <= 0x8000_0000 < Pow2(WORD)
  {
    hide Pow2;
    var k: nat :| k < 32 && a.align == Pow2(k);
    Pow2Grows(k, 31);
    WordSizes();
  }

  lemma {:induction false} AlignsUp(value: nat, a: ArgMD)
    requires FieldsOk(a) && value < 0xC000_0000_0000_0000
    ensures 0 < a.align < Pow2(WORD) && AlignUp(value, a.align) % a.align == 0
    ensures value <= AlignUp(value, a.align) < value + a.align
  {
    AlignAllowed(a);
    hide Pow2, AlignUp;
    WordSizes();
    var k: nat :| k < 32 && a.align == Pow2(k);
    AlignUpIs(value, k);
  }

  /** Nothing overflows, so each argument starts aligned, at most an alignment after the one before it ends. */
  lemma {:induction false} StartIs(args: seq<ArgMD>, i: nat)
    requires i < |args| && WellFormed(args)
    ensures 0 < args[i].align <= Pow2(WORD) && Start(args, i) == AlignUp(End(args, i), args[i].align)
    ensures Start(args, i) % args[i].align == 0 && End(args, i) <= Start(args, i) < End(args, i) + args[i].align
    ensures End(args, i) % args[i].align == 0 ==> Start(args, i) == End(args, i)
    ensures End(args, i) <= i * 0x1_8000_0000
    decreases i, 1
  {
    hide Pow2, AlignUp, FieldsOk;
    EndFits(args, i);
    AlignsUp(End(args, i), args[i]);
    SameMultiple(End(args, i), Start(args, i), args[i].align);
  }

  lemma SameMultiple(a: nat, b: nat, m: nat)
    requires m > 0 && a <= b < a + m && b % m == 0
    ensures a % m == 0 ==> a == b
  {
    if a % m == 0 {
      var p, q := a / m, b / m;
      assert b - a == (q - p) * m;
      MultipleApart(q - p, m);
    }
  }

  lemma {:induction false} EndFits(args: seq<ArgMD>, n: nat)
    requires n <= |args| && WellFormed(args)
    ensures End(args, n) <= n * 0x1_8000_0000
    decreases n, 0
  {
    hide Pow2, AlignUp;
    if n > 0 {
      StartIs(args, n - 1);
      AlignAllowed(args[n - 1]);
    }
  }

  ghost function Padding(args: seq<ArgMD>, i: nat): nat
    requires i < |args| && WellFormed(args)
  {
    StartIs(args, i);
    Start(args, i) - End(args, i)
  }

  ghost function ExplicitPart(a: ArgMD): nat {
    if a.hidden then 0 else a.size
  }

  /** What the loop counts as explicit: the sizes of the arguments that are not hidden, and all padding. */
  ghost function ExplicitSize(args: seq<ArgMD>, n: nat): nat
    requires n <= |args| && WellFormed(args)
  {
    if n == 0 then 0 else ExplicitSize(args, n - 1) + Padding(args, n - 1) + ExplicitPart(args[n - 1])
  }

  ghost function HiddenSize(args: seq<ArgMD>, n: nat): nat
    requires n <= |args|
  {
    if n == 0 then 0 else HiddenSize(args, n - 1) + if args[n - 1].hidden then args[n - 1].size else 0
  }

  predicate HasHidden(args: seq<ArgMD>) {
    exists i :: 0 <= i < |args| && args[i].hidden
  }

  /** Where ATMI's implicit block starts: behind the explicit size if some argument is hidden, else as declared. */
  ghost function BlockStart(args: seq<ArgMD>, declared: nat): nat
    requires WellFormed(args)
  {
    if declared > 0 && HasHidden(args) then ExplicitSize(args, |args|) else declared
  }

  lemma {:induction false} NothingYet(args: seq<ArgMD>)
    requires WellFormed(args)
    ensures End(args, 0) == 0 && ExplicitSize(args, 0) == 0
  {
  }

  lemma {:induction false} EndAfter(args: seq<ArgMD>, i: nat)
    requires i < |args| && WellFormed(args)
    ensures End(args, i + 1) == Start(args, i) + args[i].size
  {
    hide WellFormed, AlignUp, Start;
  }

  lemma {:induction false} ExplicitAfter(args: seq<ArgMD>, i: nat)
    requires i < |args| && WellFormed(args)
    ensures Start(args, i) >= End(args, i)
    ensures ExplicitSize(args, i + 1) ==
            ExplicitSize(args, i) + (Start(args, i) - End(args, i)) + ExplicitPart(args[i])
  {
    hide WellFormed, AlignUp, Start, End;
    StartIs(args, i);
  }

  /** An argument is aligned, and starts less than an alignment behind the end of the one before it. */
  ghost predicate JustBehind(args: seq<ArgMD>, offsets: seq<nat>, i: nat)
    requires 0 < i < |offsets| <= |args|
  {
    && args[i].align > 0 && offsets[i] % args[i].align == 0
    && offsets[i - 1] + args[i - 1].size <= offsets[i] < offsets[i - 1] + args[i - 1].size + args[i].align
  }

  lemma AllJustBehind(args: seq<ArgMD>)
    requires WellFormed(args)
    ensures |args| > 0 ==> Start(args, 0) == 0
    ensures forall i {:trigger args[i]} :: 0 < i < |args| ==>
              && args[i].align > 0 && Start(args, i) % args[i].align == 0
              && Start(args, i - 1) + args[i - 1].size <= Start(args, i)
              && Start(args, i) < Start(args, i - 1) + args[i - 1].size + args[i].align
  {
    NothingYet(args);
    hide WellFormed, AlignUp, Start, End;
    if |args| > 0 { StartIs(args, 0); }
    forall i | 0 < i < |args|
      ensures args[i].align > 0 && Start(args, i) % args[i].align == 0
      ensures Start(args, i - 1) + args[i - 1].size <= Start(args, i)
      ensures Start(args, i) < Start(args, i - 1) + args[i - 1].size + args[i].align
    {
      StartIs(args, i);
      EndAfter(args, i - 1);
    }
  }

  /** The loop over the arguments' metadata; nothing is looked at when the code object declares no segment. */
  method Layout(args: seq<ArgMD>, declared: nat) returns (offsets: seq<nat>, segmentSize: nat)
    requires WellFormed(args)
    ensures |offsets| == if declared > 0 then |args| else 0
    ensures forall i {:trigger offsets[i]} :: 0 <= i < |offsets| ==> offsets[i] == Start(args, i)
    ensures segmentSize == BlockStart(args, declared) + 80
    ensures segmentSize == 80 + if declared > 0 && (exists i :: 0 <= i < |args| && args[i].hidden)
                                then End(args, |args|) - HiddenSize(args, |args|) else declared
    ensures |offsets| > 0 ==> offsets[0] == 0
    ensures forall i {:trigger offsets[i]} :: 0 < i < |offsets| ==> JustBehind(args, offsets, i)
  {
    hide WellFormed, Pow2, AlignUp, Start, End, ExplicitSize;
    NothingYet(args);
    BytesCounted(args, |args|);
    AllJustBehind(args);
    offsets := [];
    var explicitSize, hasHidden := 0, false;
    if declared > 0 {
      var offset := 0;
      for i := 0 to |args|
        invariant |offsets| == i && offset == End(args, i) && explicitSize == ExplicitSize(args, i)
        invariant forall j {:trigger offsets[j]} :: 0 <= j < i ==> offsets[j] == Start(args, j)
        invariant hasHidden == exists j :: 0 <= j < i && args[j].hidden
      {
        StartIs(args, i);
        EndAfter(args, i);
        ExplicitAfter(args, i);
        var newOffset := AlignUp(offset, args[i].align);
        var padding := newOffset - offset;
        offset := newOffset;
        offsets := offsets + [offset];
        offset := offset + args[i].size;
        if !args[i].hidden {
          explicitSize := explicitSize + args[i].size;
        } else {
          hasHidden := true;
        }
        explicitSize := explicitSize + padding;
      }
    }
    segmentSize := (if hasHidden then explicitSize else declared) + IMPLICIT_SIZE;
    forall i | 0 < i < |offsets|
      ensures JustBehind(args, offsets, i)
    {
      assert offsets[i - 1] == Start(args, i - 1);
    }
  }

  // ---------------------------------------------------------------- what the layout means

  lemma {:induction false} EndsGrow(args: seq<ArgMD>, m: nat, n: nat)
    requires m <= n <= |args| && WellFormed(args)
    ensures End(args, m) <= End(args, n)
    decreases n
  {
    hide WellFormed, AlignUp, Start, End;
    if m < n {
      StartIs(args, n - 1);
      EndAfter(args, n - 1);
      EndsGrow(args, m, n - 1);
    }
  }

  /** Offsets are aligned and increase, and no two arguments overlap. */
  lemma {:induction false} ArgumentsApart(args: seq<ArgMD>, i: nat, j: nat)
    requires i < j < |args| && WellFormed(args)
    ensures args[i].align > 0 && Start(args, i) % args[i].align == 0
    ensures Start(args, i) + args[i].size <= Start(args, j)
  {
    hide WellFormed, AlignUp, Start, End;
    StartIs(args, i);
    StartIs(args, j);
    EndsGrow(args, i + 1, j);
    EndAfter(args, i);
  }

  /** Every byte up to the end is padding, explicit or hidden, and counted once. */
  lemma {:induction false} BytesCounted(args: seq<ArgMD>, n: nat)
    requires n <= |args| && WellFormed(args)
    ensures ExplicitSize(args, n) + HiddenSize(args, n) == End(args, n)
  {
    NothingYet(args);
    hide WellFormed, AlignUp, Start, End, ExplicitSize;
    if n > 0 {
      EndAfter(args, n - 1);
      ExplicitAfter(args, n - 1);
      BytesCounted(args, n - 1);
    }
  }

  ghost predicate FirstHidden(args: seq<ArgMD>, h: nat) {
    h < |args| && args[h].hidden && forall i :: 0 <= i < h ==> !args[i].hidden
  }

  lemma {:induction false} NoneHidden(args: seq<ArgMD>, n: nat)
    requires n <= |args| && forall i :: 0 <= i < n ==> !args[i].hidden
    ensures HiddenSize(args, n) == 0
  {
    if n > 0 { NoneHidden(args, n - 1); }
  }

  /** What the arguments from m to n add to the explicit size. */
  lemma {:induction false} AddedAfter(args: seq<ArgMD>, m: nat, n: nat)
    requires m <= n <= |args| && WellFormed(args)
    ensures ExplicitSize(args, m) <= ExplicitSize(args, n)
    ensures ExplicitSize(args, m) == ExplicitSize(args, n) <==> forall i :: m <= i < n ==> AddsNothing(args, i)
    decreases n
  {
    hide WellFormed, Padding, ExplicitPart;
    if m < n {
      AddedAfter(args, m, n - 1);
      assert ExplicitSize(args, n) == ExplicitSize(args, n - 1) + Padding(args, n - 1) + ExplicitPart(args[n - 1]);
      assert (forall i :: m <= i < n ==> AddsNothing(args, i)) <==>
             (AddsNothing(args, n - 1) && forall i :: m <= i < n - 1 ==> AddsNothing(args, i));
    }
  }

  /** The argument starts where the one before it ends, and is hidden or empty. */
  ghost predicate AddsNothing(args: seq<ArgMD>, i: nat)
    requires i < |args| && WellFormed(args)
  {
    Padding(args, i) == 0 && ExplicitPart(args[i]) == 0
  }

  lemma {:induction false} UpToFirstHidden(args: seq<ArgMD>, h: nat)
    requires WellFormed(args) && FirstHidden(args, h)
    ensures ExplicitSize(args, h + 1) == Start(args, h)
  {
    StartIs(args, h);
    NoneHidden(args, h);
    BytesCounted(args, h);
  }

  /**
    ATMI's implicit block, which follows the explicit size, starts where the compiler put its first hidden
    argument if and only if each later argument starts where the one before it ends and is hidden or empty.
   */
  lemma {:induction false} BlockAtFirstHidden(args: seq<ArgMD>, h: nat)
    requires WellFormed(args) && FirstHidden(args, h)
    ensures ExplicitSize(args, |args|) == Start(args, h) <==> forall i :: h < i < |args| ==> AddsNothing(args, i)
    ensures ExplicitSize(args, |args|) >= Start(args, h)
  {
    UpToFirstHidden(args, h);
    AddedAfter(args, h + 1, |args|);
  }

  ghost predicate EightByteHidden(args: seq<ArgMD>, h: nat) {
    FirstHidden(args, h) && forall i :: h <= i < |args| ==> args[i] == ArgMD(8, 8, true)
  }

  lemma {:induction false} EightByteEnds(args: seq<ArgMD>, h: nat, i: nat)
    requires WellFormed(args) && EightByteHidden(args, h) && h < i <= |args|
    ensures End(args, i) % 8 == 0
  {
    hide WellFormed, AlignUp, Start, End;
    StartIs(args, i - 1);
    assert args[i - 1] == ArgMD(8, 8, true);
    EndAfter(args, i - 1);
    assert (Start(args, i - 1) + 8) % 8 == 0;
  }

  /** The case the code has in mind: trailing hidden arguments of 8 bytes, aligned to 8. */
  lemma {:induction false} EightByteHiddenFits(args: seq<ArgMD>, h: nat)
    requires WellFormed(args) && EightByteHidden(args, h)
    ensures ExplicitSize(args, |args|) == Start(args, h)
  {
    forall i | h < i < |args|
      ensures AddsNothing(args, i)
    {
      EightByteEnds(args, h, i);
      StartIs(args, i);
      assert args[i] == ArgMD(8, 8, true);
    }
    BlockAtFirstHidden(args, h);
  }

  /** No copy of an argument before the first hidden one reaches ATMI's implicit block. */
  lemma {:induction false} CopiesStayBelowBlock(args: seq<ArgMD>, h: nat, i: nat)
    requires WellFormed(args) && FirstHidden(args, h) && i < h
    ensures Start(args, i) + args[i].size <= ExplicitSize(args, |args|)
  {
    ArgumentsApart(args, i, h);
    BlockAtFirstHidden(args, h);
  }

  /** The bytes of an argument end at or below the block. */
  ghost predicate Below(args: seq<ArgMD>, declared: nat, i: nat)
    requires WellFormed(args) && i < |args|
  {
    Start(args, i) + args[i].size <= BlockStart(args, declared)
  }

  /**
    When the copy of an argument ends at or below the block.  If some argument is hidden: if and only if the hidden
    bytes up to it do not exceed the explicit bytes and the padding behind it.  If none is: if and only if it ends
    within what was declared.
   */
  lemma {:induction false} CopyBelowBlockIff(args: seq<ArgMD>, declared: nat, i: nat)
    requires WellFormed(args) && i < |args|
    ensures Below(args, declared, i) <==>
            if declared > 0 && HasHidden(args) then
              HiddenSize(args, i + 1) <= ExplicitSize(args, |args|) - ExplicitSize(args, i + 1)
            else
              End(args, i + 1) <= declared
  {
    hide WellFormed, AlignUp, Start, End, ExplicitSize;
    EndAfter(args, i);
    BytesCounted(args, i + 1);
  }

  ghost predicate LastExplicit(args: seq<ArgMD>, l: nat) {
    l < |args| && !args[l].hidden && forall i :: l < i < |args| ==> args[i].hidden
  }

  ghost function PaddingFrom(args: seq<ArgMD>, m: nat, n: nat): nat
    requires m <= n <= |args| && WellFormed(args)
    decreases n
  {
    if m == n then 0 else PaddingFrom(args, m, n - 1) + Padding(args, n - 1)
  }

  /** Hidden arguments add their padding to the explicit size. */
  lemma {:induction false} HiddenAddPadding(args: seq<ArgMD>, m: nat, n: nat)
    requires m <= n <= |args| && WellFormed(args) && forall i :: m <= i < n ==> args[i].hidden
    ensures ExplicitSize(args, n) == ExplicitSize(args, m) + PaddingFrom(args, m, n)
    decreases n
  {
    hide WellFormed, Padding;
    if m < n { HiddenAddPadding(args, m, n - 1); }
  }

  /** What is below the block, given where the last explicit argument l is. */
  lemma {:induction false} BelowIfLastIs(args: seq<ArgMD>, declared: nat, l: nat)
    requires WellFormed(args) && LastExplicit(args, l)
    ensures (forall i :: 0 <= i < |args| && !args[i].hidden ==> Below(args, declared, i)) <==> Below(args, declared, l)
  {
    hide WellFormed, AlignUp, Start, End, ExplicitSize;
    forall i | 0 <= i < l
      ensures Start(args, i) + args[i].size <= Start(args, l) + args[l].size
    {
      ArgumentsApart(args, i, l);
    }
  }

  /**
    All explicit arguments together: their copies stay below the block if and only if the hidden bytes before the
    last of them do not exceed the padding behind it, or, if none is hidden, all end within what was declared.
   */
  lemma {:induction false} ExplicitCopiesBelowBlockIff(args: seq<ArgMD>, declared: nat, l: nat)
    requires WellFormed(args) && LastExplicit(args, l)
    ensures (forall i :: 0 <= i < |args| && !args[i].hidden ==> Below(args, declared, i)) <==>
            if declared > 0 && HasHidden(args) then HiddenSize(args, l + 1) <= PaddingFrom(args, l + 1, |args|)
            else End(args, l + 1) <= declared
  {
    hide WellFormed, Below, End, ExplicitSize, HiddenSize, PaddingFrom;
    BelowIfLastIs(args, declared, l);
    HiddenAddPadding(args, l + 1, |args|);
    CopyBelowBlockIff(args, declared, l);
  }

  /** The simplest layout in which one does not, and in which the block does not start at the first hidden argument. */
  lemma {:induction false} CopyMayReachBlock(declared: nat)
    requires declared > 0
    ensures var args := [ArgMD(8, 8, true), ArgMD(8, 8, false)];
            WellFormed(args) && !Below(args, declared, 1)
            && FirstHidden(args, 0) && BlockStart(args, declared) != Start(args, 0)
  {
    var args := [ArgMD(8, 8, true), ArgMD(8, 8, false)];
    assert Pow2(3) == 8;
    assert WellFormed(args) && args[0].hidden;
    StartIs(args, 0);
    StartIs(args, 1);
    BytesCounted(args, 2);
    assert HiddenSize(args, 2) == HiddenSize(args, 1) == 8;
  }
}
