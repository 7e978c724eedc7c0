/** Shifts, logarithms and the bin-index arithmetic of Heap_DL.cpp, on unbounded naturals. */
module Bits {

  const W32: nat := 0x1_0000_0000
  const W64: nat := 0x1_0000_0000_0000_0000

  function Pow2(n: nat): (r: nat)
    ensures r > 0
  {
    if n == 0 then 1 else 2 * Pow2(n - 1)
  }

  /** Logical shift right by `w` places. */
  function Sh(s: nat, w: nat): nat
    decreases w
  {
    if w == 0 then s else Sh(s, w - 1) / 2
  }

  /** A `size_t` shifted left by `n` places: the high bits fall off. */
  function Shl(s: nat, n: nat): (r: nat)
    ensures r < W64
    decreases n
  {
    if n == 0 then s % W64 else (2 * Shl(s, n - 1)) % W64
  }

  /** Position of the highest set bit. */
  function Log2(x: nat): nat
    requires x > 0
  {
    if x == 1 then 0 else 1 + Log2(x / 2)
  }

  lemma {:induction false} ShMono(a: nat, b: nat, w: nat)
    requires a <= b
    ensures Sh(a, w) <= Sh(b, w)
    decreases w
  {
    if w > 0 {
      ShMono(a, b, w - 1);
    }
  }

  lemma {:induction false} ShCompose(s: nat, a: nat, b: nat)
    ensures Sh(Sh(s, a), b) == Sh(s, a + b)
    decreases b
  {
    if b > 0 {
      ShCompose(s, a, b - 1);
    }
  }

  lemma {:induction false} ShHalf(s: nat, w: nat)
    ensures Sh(s / 2, w) == Sh(s, w) / 2
    decreases w
  {
    if w > 0 {
      ShHalf(s, w - 1);
    }
  }

  lemma MulMono(a: nat, b: nat, c: nat)
    requires a <= b
    ensures a * c <= b * c
  {
  }

  /** `Sh(s, w)` is the quotient of `s` by 2^w. */
  lemma {:induction false} ShRange(s: nat, w: nat)
    ensures Sh(s, w) * Pow2(w) <= s < (Sh(s, w) + 1) * Pow2(w)
    decreases w
  {
    if w > 0 {
      ShRange(s, w - 1);
      var h, p, q := Sh(s, w), Pow2(w - 1), Sh(s, w - 1);
      Halved(h, q, p);
    }
  }

  lemma Halved(h: nat, q: nat, p: nat)
    requires h == q / 2
    ensures h * (2 * p) <= q * p
    ensures (q + 1) * p <= (h + 1) * (2 * p)
  {
    MulMono(2 * h, q, p);
    MulMono(q + 1, 2 * h + 2, p);
    assert h * (2 * p) == (2 * h) * p;
    assert (h + 1) * (2 * p) == (2 * h + 2) * p;
  }

  lemma ShZero(s: nat, w: nat)
    requires s < Pow2(w)
    ensures Sh(s, w) == 0
  {
    ShRange(s, w);
    MulMono(1, if Sh(s, w) >= 1 then Sh(s, w) else 1, Pow2(w));
  }

  lemma {:induction false} Pow2Add(a: nat, b: nat)
    ensures Pow2(a + b) == Pow2(a) * Pow2(b)
    decreases a
  {
    if a > 0 {
      Pow2Add(a - 1, b);
      assert Pow2(a) * Pow2(b) == 2 * (Pow2(a - 1) * Pow2(b));
    }
  }

  lemma Pow2_64()
    ensures Pow2(8) == 256 && Pow2(32) == 0x1_0000_0000 && Pow2(63) == 0x8000_0000_0000_0000 && Pow2(64) == W64
  {
    assert Pow2(4) == 16;
    Pow2Add(4, 4);
    Pow2Add(8, 8);
    Pow2Add(16, 16);
    Pow2Add(32, 32);
    assert Pow2(64) == 2 * Pow2(63);
  }

  lemma {:induction false} ShAdd(x: nat, c: nat, n: nat, j: nat)
    requires j <= n
    ensures Sh(x + Pow2(n) * c, j) == Sh(x, j) + Pow2(n - j) * c
    decreases j
  {
    if j > 0 {
      ShAdd(x, c, n, j - 1);
      var t := Pow2(n - j) * c;
      assert Pow2(n - (j - 1)) * c == 2 * t;
      assert (Sh(x, j - 1) + 2 * t) / 2 == Sh(x, j - 1) / 2 + t;
    }
  }

  /** Doubling a word moves bit `j` to bit `j + 1`, for every bit that survives. */
  lemma DoubleBit(x: nat, j: nat)
    requires x < W64 && j < 63
    ensures Sh((2 * x) % W64, j + 1) % 2 == Sh(x, j) % 2
  {
    var c := x / 0x8000_0000_0000_0000;
    var lo := x - 0x8000_0000_0000_0000 * c;
    assert (2 * x) % W64 == 2 * lo;
    ShHalf(2 * lo, j);
    assert (2 * lo) / 2 == lo;
    Pow2_64();
    DropTop(lo, c, 63, j);
  }

  lemma DropTop(lo: nat, c: nat, n: nat, j: nat)
    requires j < n
    ensures Sh(lo + Pow2(n) * c, j) % 2 == Sh(lo, j) % 2
  {
    ShAdd(lo, c, n, j);
    Twice(Pow2(n - j - 1), c);
  }

  lemma Twice(p: nat, c: nat)
    ensures (2 * p) * c == 2 * (p * c)
  {
  }

  lemma {:induction false} ShlBit(s: nat, n: nat, j: nat)
    requires s < W64 && n + j < 64
    ensures Sh(Shl(s, n), n + j) % 2 == Sh(s, j) % 2
    decreases n
  {
    if n > 0 {
      ShlBit(s, n - 1, j);
      DoubleBit(Shl(s, n - 1), n - 1 + j);
    }
  }

  lemma TopBit(b: nat)
    ensures b / 0x8000_0000_0000_0000 == Sh(b, 63)
  {
    hide Sh, Pow2;
    Pow2_64();
    ShRange(b, 63);
    Quotient(b, Sh(b, 63));
  }

  lemma Quotient(b: nat, t: nat)
    requires t * 0x8000_0000_0000_0000 <= b < (t + 1) * 0x8000_0000_0000_0000
    ensures b / 0x8000_0000_0000_0000 == t
  {
  }

  /** The sign bit of `S << n` is bit `63 - n` of `S`. */
  lemma SignBit(s: nat, n: nat)
    requires s < W64 && n < 64
    ensures Shl(s, n) / 0x8000_0000_0000_0000 == Sh(s, 63 - n) % 2
  {
    hide Sh, Shl;
    ShlBit(s, n, 63 - n);
    TopBit(Shl(s, n));
    SmallTop(Shl(s, n));
  }

  lemma SmallTop(b: nat)
    requires b < W64
    ensures b / 0x8000_0000_0000_0000 < 2
  {
  }

  lemma {:induction false} Log2Top(x: nat)
    requires x > 0
    ensures Sh(x, Log2(x)) == 1
  {
    if x > 1 {
      Log2Top(x / 2);
      ShHalf(x, Log2(x / 2));
    }
  }

  lemma {:induction false} Log2Mono(a: nat, b: nat)
    requires 0 < a <= b
    ensures Log2(a) <= Log2(b)
  {
    if a > 1 {
      Log2Mono(a / 2, b / 2);
    }
  }

  // ----- Size classes (compute_tree_index and the macros beside it)

  const NTREEBINS: nat := 32
  /** compute_tree_index, in its `size_t` form: K is the position of the highest set bit of S >> 8. */
  function TreeIndex(s: nat): (i: nat)
  {
    var x := Sh(s, 8);
    if x == 0 then 0
    else if x > 0xFFFF then NTREEBINS - 1
    else
      var k := Log2(x);
      2 * k + Sh(s, k + 7) % 2
  }

  // ----- The portable compute_tree_index

  /** `((x - least) >> 16) & b` on 32-bit words: `b` if `x` is smaller than `least`, which borrows, and otherwise 0. */
  function Borrow(x: nat, least: nat, b: nat): (r: nat)
    requires least <= 0xFFFF && b > 0
    ensures r <= b
  {
    (x + W32 - least) % W32 / 0x1_0000 / b % 2 * b
  }

  /** `x << n` on 32-bit words. */
  function Shl32(x: nat, n: nat): nat {
    x * Pow2(n) % W32
  }

  /** Three tests shift the word until its highest bit is one of two. */
  function PortableTreeIndex(s: nat): nat {
    var x := Sh(s, 8);
    if x == 0 then 0
    else if x > 0xFFFF then NTREEBINS - 1
    else
      var n := Borrow(x, 0x100, 8);
      var y := Shl32(x, n);
      var n' := Borrow(y, 0x1000, 4);
      var y' := Shl32(y, n');
      var n'' := Borrow(y', 0x4000, 2);
      var k := 14 - (n + n' + n'') + Sh(Shl32(y', n''), 15);
      2 * k + Sh(s, k + 7) % 2
  }

  lemma BorrowIs(x: nat, least: nat, b: nat)
    requires x <= 0xFFFF && least <= 0xFFFF && (b == 8 || b == 4 || b == 2)
    ensures Borrow(x, least, b) == if x < least then b else 0
  {
    if x < least {
      assert (x + W32 - least) % W32 == x + W32 - least;
      assert (x + W32 - least) / 0x1_0000 == 0xFFFF;
    } else {
      assert (x + W32 - least) % W32 == x - least;
    }
  }

  lemma {:induction false} Log2Times(x: nat, n: nat)
    requires x > 0
    ensures x * Pow2(n) > 0 && Log2(x * Pow2(n)) == Log2(x) + n
  {
    if n > 0 {
      Log2Times(x, n - 1);
      assert x * Pow2(n) == 2 * (x * Pow2(n - 1));
    }
  }

  /** One test: the word stays below 2^16 and is now at least `least`. */
  lemma Narrowed(x: nat, least: nat, b: nat)
    requires 0 < x <= 0xFFFF && least <= 0xFFFF && (b == 8 || b == 4 || b == 2) && least * Pow2(b) == 0x1_0000
    requires x * Pow2(b) >= least
    ensures var n := Borrow(x, least, b);
      var y := Shl32(x, n); least <= y <= 0xFFFF && Log2(y) == Log2(x) + n
  {
    hide Log2, Pow2, Borrow;
    var n := Borrow(x, least, b);
    BorrowIs(x, least, b);
    Log2Times(x, n);
    if x < least {
      TimesLess(x, least, Pow2(b));
    } else {
      NoShift(x);
    }
  }

  lemma TimesLess(x: nat, least: nat, p: nat)
    requires x < least && p > 0
    ensures x * p < least * p
  {
  }

  lemma NoShift(x: nat)
    ensures x * Pow2(0) == x
  {
  }

  lemma {:induction false} Log2Is(y: nat, k: nat)
    requires Pow2(k) <= y < Pow2(k + 1)
    ensures Log2(y) == k
  {
    if k > 0 {
      Log2Is(y / 2, k - 1);
    }
  }

  lemma LastTwo(y: nat)
    requires 0x4000 <= y <= 0xFFFF
    ensures Log2(y) == 14 + Sh(y, 15)
  {
    hide Log2, Sh;
    ShRange(y, 15);
    assert Pow2(14) == 0x4000 && Pow2(15) == 0x8000 && Pow2(16) == 0x1_0000;
    Log2Is(y, if y < 0x8000 then 14 else 15);
  }

  /** The portable form computes the same index, for every size. */
  lemma PortableIs(s: nat)
    ensures PortableTreeIndex(s) == TreeIndex(s)
  {
    hide Sh, Log2, Borrow, Shl32;
    var x := Sh(s, 8);
    if 0 < x <= 0xFFFF {
      assert Pow2(8) == 256 && Pow2(4) == 16 && Pow2(2) == 4;
      Narrowed(x, 0x100, 8);
      var y := Shl32(x, Borrow(x, 0x100, 8));
      Narrowed(y, 0x1000, 4);
      var z := Shl32(y, Borrow(y, 0x1000, 4));
      Narrowed(z, 0x4000, 2);
      LastTwo(Shl32(z, Borrow(z, 0x4000, 2)));
    }
  }

  // ----- The GCC form, which truncates

  /** `S >> 8` goes into an `unsigned int`: the bits above are lost. */
  function GccTreeIndex(s: nat): nat {
    var x := Sh(s, 8) % W32;
    if x == 0 then 0
    else if x > 0xFFFF then NTREEBINS - 1
    else
      var k := Log2(x);
      2 * k + Sh(s, k + 7) % 2
  }

  /** The index is the right one exactly for sizes below 2^40, and for those whose loss does not show. */
  lemma GccIs(s: nat)
    ensures GccTreeIndex(s) == TreeIndex(s) <==> s < 0x100_0000_0000 || Sh(s, 8) % W32 >= 0xC000
  {
    hide Sh, Log2;
    var y := Sh(s, 8);
    var x := y % W32;
    ShRange(s, 8);
    assert Pow2(8) == 256;
    if y >= W32 && 0 < x <= 0xFFFF {
      Log2Small(x);
      if x < 0x8000 {
        Log2Mono(x, 0x7FFF);
        assert Pow2(14) == 0x4000 && Pow2(15) == 0x8000;
        Log2Is(0x7FFF, 14);
      } else {
        assert Pow2(15) == 0x8000 && Pow2(16) == 0x1_0000;
        Log2Is(x, 15);
        ShCompose(s, 8, 14);
        SecondBit(y, x);
      }
    }
  }

  lemma SecondBit(y: nat, x: nat)
    requires x == y % W32 && 0x8000 <= x <= 0xFFFF
    ensures Sh(y, 14) % 2 == if x >= 0xC000 then 1 else 0
  {
    hide Sh, Pow2;
    ShRange(y, 14);
    assert Pow2(14) == 0x4000 by { FourteenBits(); }
    SecondBitOf(y, y / W32, x, Sh(y, 14));
  }

  lemma FourteenBits()
    ensures Pow2(14) == 0x4000
  {
  }

  lemma SecondBitOf(y: nat, q: nat, x: nat, a: nat)
    requires y == q * W32 + x && 0x8000 <= x <= 0xFFFF && a * 0x4000 <= y < (a + 1) * 0x4000
    ensures a % 2 == if x >= 0xC000 then 1 else 0
  {
    var b := a - q * 0x4_0000;
    assert b * 0x4000 <= x < (b + 1) * 0x4000;
    assert b == if x >= 0xC000 then 3 else 2;
    assert a == 2 * (q * 0x2_0000) + b;
  }

  /** Number of low bits the trie of bin `i` examines: one more than bit_for_tree_index. */
  function Width(i: nat): nat {
    if i == NTREEBINS - 1 then 64 else i / 2 + 7
  }

  /** What is left of a size in bin `i` above those bits. */
  function RootQ(i: nat): nat {
    if i == NTREEBINS - 1 then 0 else 2 + i % 2
  }

  function LeftShiftForTreeIndex(i: nat): nat
    requires i < NTREEBINS
  {
    if i == NTREEBINS - 1 then 0 else 63 - (i / 2 + 8 - 2)
  }

  /** minsize_for_tree_index: the two bits it ors together never overlap. */
  function MinSize(i: nat): nat {
    Pow2(i / 2 + 8) + (i % 2) * Pow2(i / 2 + 7)
  }

  lemma Log2Small(x: nat)
    requires 0 < x <= 0xFFFF
    ensures Log2(x) <= 15
  {
    Log2Mono(x, 0xFFFF);
    assert Log2(0xFFFF) == 15;
  }

  lemma TreeIndexBound(s: nat)
    ensures TreeIndex(s) < NTREEBINS
  {
    var x := Sh(s, 8);
    if 0 < x <= 0xFFFF {
      Log2Small(x);
    }
  }

  /** A size shifted by its bin's width leaves exactly the bin's root prefix. */
  lemma RootPrefix(s: nat)
    requires 256 <= s < W64
    ensures TreeIndex(s) < NTREEBINS
    ensures Sh(s, Width(TreeIndex(s))) == RootQ(TreeIndex(s))
  {
    hide Sh, Log2;
    TreeIndexBound(s);
    LargeShifted(s);
    if TreeIndex(s) == NTREEBINS - 1 {
      Pow2_64();
      ShZero(s, 64);
    } else {
      TopTwoBits(s, Log2(Sh(s, 8)));
    }
  }

  lemma LargeShifted(s: nat)
    requires 256 <= s
    ensures Sh(s, 8) > 0
  {
    ShMono(256, s, 8);
    assert Sh(256, 8) == 1;
  }

  /** The two highest bits of a size whose shifted logarithm is `k`. */
  lemma TopTwoBits(s: nat, k: nat)
    requires Sh(s, 8) > 0 && k == Log2(Sh(s, 8))
    ensures Sh(s, k + 7) == 2 + Sh(s, k + 7) % 2
  {
    Log2Top(Sh(s, 8));
    ShCompose(s, 8, k);
    ShStep(s, k + 7);
  }

  lemma ShStep(s: nat, w: nat)
    ensures Sh(s, w + 1) == Sh(s, w) / 2
  {
  }

  lemma TreeIndexMono(a: nat, b: nat)
    requires a <= b
    ensures TreeIndex(a) <= TreeIndex(b)
  {
    hide Sh, Log2;
    TreeIndexBound(a);
    TreeIndexBound(b);
    ShMono(a, b, 8);
    var x, y := Sh(a, 8), Sh(b, 8);
    if 0 < x && y <= 0xFFFF {
      Log2Mono(x, y);
      var k := Log2(x);
      if Log2(y) == k {
        TopTwoBits(a, k);
        TopTwoBits(b, k);
        ShMono(a, b, k + 7);
      }
    }
  }

  /** Sizes of different bins are separated: the higher bin holds the larger sizes. */
  lemma BinsOrdered(a: nat, b: nat)
    requires TreeIndex(a) < TreeIndex(b)
    ensures a < b
  {
    if b <= a {
      TreeIndexMono(b, a);
    }
  }

  // ----- The sizes of a bin

  lemma MinSizeIs(i: nat)
    ensures MinSize(i) == (2 + i % 2) * Pow2(i / 2 + 7)
    ensures MinSize(i + 1) == (3 + i % 2) * Pow2(i / 2 + 7)
  {
    hide Pow2;
    PowerStep(i / 2 + 7);
    PowerStep(i / 2 + 8);
  }

  lemma PowerStep(n: nat)
    ensures Pow2(n + 1) == 2 * Pow2(n)
  {
  }

  /** minsize_for_tree_index: every bin but the last holds the sizes from its minimum up to the next bin's. */
  lemma SizeBracket(s: nat)
    requires 256 <= s < W64
    ensures var i := TreeIndex(s); MinSize(i) <= s && (i != NTREEBINS - 1 ==> s < MinSize(i + 1))
  {
    hide Sh, Log2, Pow2;
    var i, x := TreeIndex(s), Sh(s, 8);
    LargeShifted(s);
    MinSizeIs(i);
    if x > 0xFFFF {
      ShRange(s, 8);
      LastBinMin();
    } else {
      var k := Log2(x);
      TopTwoBits(s, k);
      ShRange(s, k + 7);
    }
  }

  lemma LastBinMin()
    ensures Pow2(8) == 256 && MinSize(NTREEBINS - 1) <= 0x10000 * 256
  {
    Pow2_64();
    assert Pow2(23) == 2 * Pow2(22);
    Pow2Add(8, 14);
    Pow2Add(6, 8);
    assert Pow2(6) == 64;
  }
}
