/** Bitwise AND on natural numbers, and what masking means for powers of two. */
module Bits {

  function Pow2(k: nat): (n: nat)
    ensures n > 0
  {
    if k == 0 then 1 else 2 * Pow2(k - 1)
  }

  ghost predicate PowerOfTwo(n: nat) {
    exists k: nat :: n == Pow2(k)
  }

  /** `a & b`, bit by bit. */
  function BitAnd(a: nat, b: nat): nat
    decreases a
  {
    if a == 0 || b == 0 then 0 else 2 * BitAnd(a / 2, b / 2) + (a % 2) * (b % 2)
  }

  lemma HalfMod(a: nat, m: nat)
    requires m > 0
    ensures a % (2 * m) == 2 * ((a / 2) % m) + a % 2
  {
    var q, r := (a / 2) / m, (a / 2) % m;
    assert a / 2 == q * m + r;
    assert a == 2 * (q * m + r) + a % 2;
    var low := 2 * r + a % 2;
    assert a == q * (2 * m) + low && 0 <= low < 2 * m;
    DivModUnique(a, 2 * m, q, low);
  }

  lemma DivModUnique(a: nat, m: nat, q: nat, r: nat)
    requires m > 0 && a == q * m + r && r < m
    ensures a / m == q && a % m == r
  {
    var q', r' := a / m, a % m;
    assert (q - q') * m == r' - r;
    MultipleApart(q - q', m);
  }

  lemma MultipleApart(x: int, m: nat)
    ensures x > 0 ==> x * m >= m
    ensures x < 0 ==> x * m + m <= 0
  {
    if x > 0 { assert (x - 1) * m >= 0; }
    if x < 0 { assert (-x - 1) * m >= 0; }
  }

  /** The lowest bit aside, an odd mask masks the halves. */
  lemma AndOdd(a: nat, b: nat)
    ensures BitAnd(a, 2 * b + 1) == 2 * BitAnd(a / 2, b) + a % 2
  {
    assert (2 * b + 1) / 2 == b && (2 * b + 1) % 2 == 1;
  }

  lemma AndEven(a: nat, b: nat)
    ensures BitAnd(a, 2 * b) == 2 * BitAnd(a / 2, b)
  {
    assert (2 * b) / 2 == b && (2 * b) % 2 == 0;
  }

  /** Masking with a power of two less one is the remainder. */
  lemma {:induction false} MaskIsMod(a: nat, k: nat)
    ensures BitAnd(a, Pow2(k) - 1) == a % Pow2(k)
    decreases k
  {
    if k == 0 {
    } else {
      hide BitAnd, Pow2;
      var h := Pow2(k - 1);
      Pow2Double(k - 1);
      AndOdd(a, h - 1);
      MaskIsMod(a / 2, k - 1);
      HalfMod(a, h);
    }
  }

  lemma MaskOfSize(a: nat, size: nat)
    requires PowerOfTwo(size)
    ensures size > 0 && BitAnd(a, size - 1) == a % size
  {
    var k: nat :| size == Pow2(k);
    MaskIsMod(a, k);
  }

  // ---------------------------------------------------------------- complements in a machine word

  /** The bits of a word of the given width that are above the lowest k. */
  lemma {:induction false} HighMaskIs(a: nat, k: nat, width: nat)
    requires k <= width && a < Pow2(width)
    ensures Pow2(width) >= Pow2(k) && BitAnd(a, Pow2(width) - Pow2(k)) == a - a % Pow2(k)
    decreases k
  {
    Pow2Grows(k, width);
    if k == 0 {
      MaskIsMod(a, width);
      SmallMod(a, Pow2(width));
    } else {
      hide BitAnd, Pow2;
      Pow2Double(k - 1);
      Pow2Double(width - 1);
      HighMaskIs(a / 2, k - 1, width - 1);
      HighMaskStep(a, Pow2(k - 1), Pow2(width - 1));
    }
  }

  lemma HighMaskStep(a: nat, h: nat, w: nat)
    requires 0 < h <= w && BitAnd(a / 2, w - h) == a / 2 - (a / 2) % h
    ensures BitAnd(a, 2 * w - 2 * h) == a - a % (2 * h)
  {
    hide BitAnd;
    AndEven(a, w - h);
    HalfMod(a, h);
  }

  lemma SmallMod(a: nat, m: nat)
    requires a < m
    ensures a % m == a
  {
  }

  lemma {:induction false} Pow2Grows(k: nat, n: nat)
    requires k <= n
    ensures Pow2(k) <= Pow2(n)
    decreases n
  {
    if k < n { Pow2Grows(k, n - 1); }
  }

  lemma {:induction false} Pow2Double(n: nat)
    ensures Pow2(n + 1) == 2 * Pow2(n)
  {
  }

  lemma {:induction false} Pow2Byte(n: nat)
    ensures Pow2(n + 8) == 256 * Pow2(n)
  {
    hide Pow2;
    Pow2Double(n);
    Pow2Double(n + 1);
    Pow2Double(n + 2);
    Pow2Double(n + 3);
    Pow2Double(n + 4);
    Pow2Double(n + 5);
    Pow2Double(n + 6);
    Pow2Double(n + 7);
  }

  lemma {:induction false} WordSizes()
    ensures Pow2(31) == 0x8000_0000 && Pow2(32) == 0x1_0000_0000 && Pow2(64) == 0x1_0000_0000_0000_0000
  {
    assert Pow2(0) == 1;
    hide Pow2;
    Pow2Byte(0);
    Pow2Byte(8);
    Pow2Byte(16);
    Pow2Byte(24);
    Pow2Double(31);
    Pow2Byte(32);
    Pow2Byte(40);
    Pow2Byte(48);
    Pow2Byte(56);
  }
}
