/** The avalanche and deavalanche mixers of Util.h. */
module Avalanche {
  import opened Bits
  import opened Words

  // ----- 32 bits

  function Avalanche32(h0: nat): (h: nat) {
    var h1 := Fold(h0, 16, 32);
    var h2 := Times(h1, 0x85ebca6b, 32);
    var h3 := Fold(h2, 13, 32);
    var h4 := Times(h3, 0xc2b2ae35, 32);
    Fold(h4, 16, 32)
  }

  function Deavalanche32(h0: nat): (h: nat) {
    var h1 := Fold(h0, 16, 32);
    var h2 := Times(h1, 0x7ed1b41d, 32);
    var h3 := Xor(h2, Sh(Fold(h2, 13, 32), 13), 32);
    var h4 := Times(h3, 0xa5cb9243, 32);
    Fold(h4, 16, 32)
  }

  /** What deavalanche does between its products: it shifts by 13 twice. */
  function Unfold(h: nat, s: nat, n: nat): (r: nat) {
    Xor(h, Sh(Fold(h, s, n), s), n)
  }

  lemma UnfoldBit(h: nat, s: nat, n: nat, i: nat)
    ensures Bit(Unfold(h, s, n), i) ==
      if i >= n then 0 else if i + s < n then (Bit(h, i) + (Bit(h, i + s) + Bit(h, i + s + s)) % 2) % 2 else Bit(h, i)
  {
    hide Bit, Fold, Xor;
    XorBit(h, Sh(Fold(h, s, n), s), n, i);
    ShBit(Fold(h, s, n), s, i);
    FoldBit(h, s, n, i + s);
  }

  /** Shifting twice undoes a shift by a third of the width or more, and the other way round. */
  lemma UnfoldFold(h: nat, s: nat, n: nat)
    requires h < Pow2(n) && n <= 3 * s
    ensures Unfold(Fold(h, s, n), s, n) == h && Fold(Unfold(h, s, n), s, n) == h
  {
    hide Bit, Fold, Unfold, Pow2;
    var x, y := Fold(h, s, n), Unfold(h, s, n);
    forall i: nat | i < n ensures Bit(Unfold(x, s, n), i) == Bit(h, i) && Bit(Fold(y, s, n), i) == Bit(h, i) {
      UnfoldFoldBit(h, s, n, i);
    }
    FoldBound(y, s, n);
    UnfoldBound(x, s, n);
    SameBits(Unfold(x, s, n), h, n);
    SameBits(Fold(y, s, n), h, n);
  }

  lemma UnfoldBound(h: nat, s: nat, n: nat)
    ensures Unfold(h, s, n) < Pow2(n)
  {
    XorBound(h, Sh(Fold(h, s, n), s), n);
  }

  lemma UnfoldFoldBit(h: nat, s: nat, n: nat, i: nat)
    requires h < Pow2(n) && n <= 3 * s && i < n
    ensures Bit(Unfold(Fold(h, s, n), s, n), i) == Bit(h, i) && Bit(Fold(Unfold(h, s, n), s, n), i) == Bit(h, i)
  {
    hide Bit, Fold, Unfold, Pow2;
    UnfoldBit(Fold(h, s, n), s, n, i);
    FoldBit(Unfold(h, s, n), s, n, i);
    FoldBit(h, s, n, i);
    FoldBit(h, s, n, i + s);
    FoldBit(h, s, n, i + s + s);
    UnfoldBit(h, s, n, i);
    UnfoldBit(h, s, n, i + s);
    HighBit(h, n, i + s + s + s);
    if i + s + s >= n { HighBit(h, n, i + s + s); }
    if i + s >= n { HighBit(h, n, i + s); }
  }

  /** Each of the two undoes the other, on all 32-bit words. */
  lemma Inverse32(h: nat)
    requires h < Pow2(32)
    ensures Deavalanche32(Avalanche32(h)) == h && Avalanche32(Deavalanche32(h)) == h
  {
    hide Fold, Xor, Times, Pow2;
    Forward32(h);
    Backward32(h);
  }

  lemma Forward32(h: nat)
    requires h < Pow2(32)
    ensures Deavalanche32(Avalanche32(h)) == h
  {
    hide Fold, Xor, Times, Pow2, Sh;
    Pow2_64();
    var h1 := Fold(h, 16, 32);
    var h2 := Times(h1, 0x85ebca6b, 32);
    var h3 := Fold(h2, 13, 32);
    var h4 := Times(h3, 0xc2b2ae35, 32);
    FoldTwice(h4, 16, 32);
    FoldBound(h2, 13, 32);
    TimesInverse(h3, 0xc2b2ae35, 0x7ed1b41d, 32);
    UnfoldFold(h2, 13, 32);
    FoldBound(h, 16, 32);
    TimesInverse(h1, 0x85ebca6b, 0xa5cb9243, 32);
    FoldTwice(h, 16, 32);
  }

  lemma Backward32(h: nat)
    requires h < Pow2(32)
    ensures Avalanche32(Deavalanche32(h)) == h
  {
    hide Fold, Xor, Times, Pow2, Sh;
    Pow2_64();
    var h1 := Fold(h, 16, 32);
    var h2 := Times(h1, 0x7ed1b41d, 32);
    var h3 := Unfold(h2, 13, 32);
    var h4 := Times(h3, 0xa5cb9243, 32);
    FoldTwice(h4, 16, 32);
    UnfoldBound(h2, 13, 32);
    TimesInverse(h3, 0xa5cb9243, 0x85ebca6b, 32);
    UnfoldFold(h2, 13, 32);
    FoldBound(h, 16, 32);
    TimesInverse(h1, 0x7ed1b41d, 0xc2b2ae35, 32);
    FoldTwice(h, 16, 32);
  }

  // ----- 64 bits

  function Avalanche64(h0: nat): (h: nat) {
    var h1 := Fold(h0, 33, 64);
    var h2 := Times(h1, 0xff51afd7ed558ccd, 64);
    var h3 := Fold(h2, 33, 64);
    var h4 := Times(h3, 0xc4ceb9fe1a85ec53, 64);
    Fold(h4, 33, 64)
  }

  function Deavalanche64(h0: nat): (h: nat) {
    var h1 := Fold(h0, 33, 64);
    var h2 := Times(h1, 0x9cb4b2f8129337db, 64);
    var h3 := Fold(h2, 33, 64);
    var h4 := Times(h3, 0x4f74430c22a54005, 64);
    Fold(h4, 33, 64)
  }

  /** Each of the two undoes the other, on all 64-bit words. */
  lemma Inverse64(h: nat)
    requires h < Pow2(64)
    ensures Deavalanche64(Avalanche64(h)) == h && Avalanche64(Deavalanche64(h)) == h
  {
    hide Fold, Times, Pow2;
    Pow2_64();
    Mixed64(h, 0xff51afd7ed558ccd, 0x4f74430c22a54005, 0xc4ceb9fe1a85ec53, 0x9cb4b2f8129337db);
    Mixed64(h, 0x9cb4b2f8129337db, 0xc4ceb9fe1a85ec53, 0x4f74430c22a54005, 0xff51afd7ed558ccd);
  }

  /** Three folds with two products between them are undone by three folds with the inverse factors, in reverse. */
  lemma Mixed64(h: nat, c: nat, c': nat, d: nat, d': nat)
    requires h < Pow2(64) && (c * c') % Pow2(64) == 1 && (d * d') % Pow2(64) == 1
    ensures var m := Fold(Times(Fold(Times(Fold(h, 33, 64), c, 64), 33, 64), d, 64), 33, 64);
      Fold(Times(Fold(Times(Fold(m, 33, 64), d', 64), 33, 64), c', 64), 33, 64) == h
  {
    hide Fold, Times, Pow2;
    var h1 := Fold(h, 33, 64);
    var h2 := Times(h1, c, 64);
    var h3 := Fold(h2, 33, 64);
    var h4 := Times(h3, d, 64);
    FoldTwice(h4, 33, 64);
    FoldBound(h2, 33, 64);
    TimesInverse(h3, d, d', 64);
    FoldTwice(h2, 33, 64);
    FoldBound(h, 33, 64);
    TimesInverse(h1, c, c', 64);
    FoldTwice(h, 33, 64);
  }

  lemma Avalanche64Bound(h: nat)
    ensures Avalanche64(h) < Pow2(64)
  {
    hide Fold, Times, Pow2;
    FoldBound(Times(Fold(Times(Fold(h, 33, 64), 0xff51afd7ed558ccd, 64), 33, 64), 0xc4ceb9fe1a85ec53, 64), 33, 64);
  }

  /** No word but zero is mixed to zero. */
  lemma Avalanche64Zero(h: nat)
    requires h < Pow2(64)
    ensures Avalanche64(h) == 0 <==> h == 0
  {
    hide Avalanche64, Deavalanche64, Pow2;
    Inverse64(h);
    ZeroMixed();
  }

  lemma ZeroMixed()
    ensures Avalanche64(0) == 0 && Deavalanche64(0) == 0
  {
    hide Times, Fold;
    FoldZero(33, 64);
    TimesZero(0xff51afd7ed558ccd);
    TimesZero(0xc4ceb9fe1a85ec53);
    TimesZero(0x9cb4b2f8129337db);
    TimesZero(0x4f74430c22a54005);
  }

  lemma TimesZero(c: nat)
    ensures Times(0, c, 64) == 0
  {
    hide Pow2;
    Pow2_64();
  }

  lemma FoldZero(s: nat, n: nat)
    ensures Fold(0, s, n) == 0
  {
    hide Xor;
    ShZero(0, s);
    XorZero(n);
  }

  lemma {:induction false} XorZero(n: nat)
    ensures Xor(0, 0, n) == 0
  {
    if n > 0 {
      XorZero(n - 1);
    }
  }
}
