/** Machine words as numbers: their bits, exclusive or, and wrapping products. */
module Words {
  import opened Bits
  import opened NumberTheory

  function Bit(a: nat, i: nat): (b: nat)
    ensures b < 2
  {
    Sh(a, i) % 2
  }

  /** Exclusive or of the lowest `n` bits. */
  function Xor(a: nat, b: nat, n: nat): (r: nat) {
    if n == 0 then 0 else 2 * Xor(a / 2, b / 2, n - 1) + (a + b) % 2
  }

  lemma {:induction false} XorBound(a: nat, b: nat, n: nat)
    ensures Xor(a, b, n) < Pow2(n)
  {
    if n > 0 {
      XorBound(a / 2, b / 2, n - 1);
    }
  }

  /** The bits of `2 * x + d`. */
  lemma BitOf(x: nat, d: nat, i: nat)
    requires d < 2
    ensures Bit(2 * x + d, i) == if i == 0 then d else Bit(x, i - 1)
  {
    if i > 0 {
      assert (2 * x + d) / 2 == x;
      ShHalf(2 * x + d, i - 1);
    }
  }

  lemma BitHalf(a: nat, i: nat)
    ensures Bit(a / 2, i) == Bit(a, i + 1) && Bit(a, 0) == a % 2
  {
    ShHalf(a, i);
  }

  lemma {:induction false} XorBit(a: nat, b: nat, n: nat, i: nat)
    ensures Bit(Xor(a, b, n), i) == if i < n then (Bit(a, i) + Bit(b, i)) % 2 else 0
  {
    hide Bit;
    if n == 0 {
      NoBits(i);
    } else {
      BitOf(Xor(a / 2, b / 2, n - 1), (a + b) % 2, i);
      BitHalf(a, if i > 0 then i - 1 else 0);
      BitHalf(b, if i > 0 then i - 1 else 0);
      if i > 0 {
        XorBit(a / 2, b / 2, n - 1, i - 1);
      } else {
        SumBits(a, b);
      }
    }
  }

  lemma SumBits(a: nat, b: nat)
    ensures (a + b) % 2 == (a % 2 + b % 2) % 2
  {
  }

  lemma NoBits(i: nat)
    ensures Bit(0, i) == 0
  {
    ShZero(0, i);
  }

  /** Beyond a word's width there are no bits. */
  lemma HighBit(a: nat, n: nat, i: nat)
    requires a < Pow2(n) && n <= i
    ensures Bit(a, i) == 0
  {
    hide Pow2;
    Pow2Add(n, i - n);
    MulMono(1, Pow2(i - n), Pow2(n));
    ShZero(a, i);
  }

  lemma ShBit(a: nat, s: nat, i: nat)
    ensures Bit(Sh(a, s), i) == Bit(a, s + i)
  {
    ShCompose(a, s, i);
  }

  /** A word is its bits. */
  lemma {:induction false} SameBits(a: nat, b: nat, n: nat)
    requires a < Pow2(n) && b < Pow2(n) && forall i: nat | i < n :: Bit(a, i) == Bit(b, i)
    ensures a == b
  {
    hide Bit;
    if n > 0 {
      forall i: nat | i < n - 1 ensures Bit(a / 2, i) == Bit(b / 2, i) {
        BitHalf(a, i);
        BitHalf(b, i);
        assert Bit(a, i + 1) == Bit(b, i + 1);
      }
      SameBits(a / 2, b / 2, n - 1);
      BitHalf(a, 0);
      BitHalf(b, 0);
      assert Bit(a, 0) == Bit(b, 0);
    }
  }

  /** Exclusive or with the same word twice changes nothing. */
  lemma XorTwice(a: nat, b: nat, n: nat)
    requires a < Pow2(n)
    ensures Xor(Xor(a, b, n), b, n) == a
  {
    hide Bit, Xor, Pow2;
    XorBound(Xor(a, b, n), b, n);
    forall i: nat | i < n ensures Bit(Xor(Xor(a, b, n), b, n), i) == Bit(a, i) {
      XorBit(Xor(a, b, n), b, n, i);
      XorBit(a, b, n, i);
    }
    SameBits(Xor(Xor(a, b, n), b, n), a, n);
  }

  // ----- Folding: exclusive or with the word itself, shifted right

  function Fold(h: nat, s: nat, n: nat): (r: nat) {
    Xor(h, Sh(h, s), n)
  }

  lemma FoldBit(h: nat, s: nat, n: nat, i: nat)
    ensures Bit(Fold(h, s, n), i) == if i < n then (Bit(h, i) + Bit(h, i + s)) % 2 else 0
  {
    hide Bit;
    XorBit(h, Sh(h, s), n, i);
    ShBit(h, s, i);
  }

  /** A shift by half the width or more is undone by shifting again. */
  lemma FoldTwice(h: nat, s: nat, n: nat)
    requires h < Pow2(n) && n <= 2 * s
    ensures Fold(Fold(h, s, n), s, n) == h
  {
    hide Bit, Fold, Pow2;
    var x := Fold(h, s, n);
    forall i: nat | i < n ensures Bit(Fold(x, s, n), i) == Bit(h, i) {
      FoldBit(x, s, n, i);
      FoldBit(h, s, n, i);
      FoldBit(h, s, n, i + s);
      if i + s < n {
        HighBit(h, n, i + s + s);
      } else {
        HighBit(h, n, i + s);
      }
    }
    FoldBound(x, s, n);
    SameBits(Fold(x, s, n), h, n);
  }

  lemma FoldBound(h: nat, s: nat, n: nat)
    ensures Fold(h, s, n) < Pow2(n)
  {
    XorBound(h, Sh(h, s), n);
  }

  // ----- Wrapping products

  function Times(h: nat, c: nat, n: nat): (r: nat)
    ensures r < Pow2(n)
  {
    (h * c) % Pow2(n)
  }

  /** Factors that are inverse to each other undo each other. */
  lemma TimesInverse(h: nat, c: nat, d: nat, n: nat)
    requires h < Pow2(n) && (c * d) % Pow2(n) == 1
    ensures Times(Times(h, c, n), d, n) == h
  {
    hide Divides, Pow2, Times;
    var w, x := Pow2(n), Times(h, c, n);
    TimesRest(h, c, n);
    OneRest(w, c * d);
    Undone(w, h, c, d, x);
    TimesIs(x, d, n, h);
  }

  lemma TimesRest(h: nat, c: nat, n: nat)
    ensures Divides(Pow2(n), h * c - Times(h, c, n))
  {
    hide Divides, Pow2;
    DividesRest(Pow2(n), h * c);
  }

  lemma OneRest(w: int, x: int)
    requires w > 0 && x % w == 1
    ensures Divides(w, x - 1)
  {
    hide Divides;
    DividesRest(w, x);
  }

  lemma TimesIs(x: nat, d: nat, n: nat, h: nat)
    requires h < Pow2(n) && Divides(Pow2(n), x * d - h)
    ensures Times(x, d, n) == h
  {
    hide Divides, Pow2;
    SameMod(Pow2(n), x * d, h);
    SmallRest(h, Pow2(n));
  }

  lemma SmallRest(h: nat, w: nat)
    requires h < w
    ensures h % w == h
  {
  }

  /** If `x` is `h * c` modulo `w` and `d` is the inverse of `c`, then `x * d` is `h`. */
  lemma Undone(w: int, h: int, c: int, d: int, x: int)
    requires Divides(w, h * c - x) && Divides(w, c * d - 1)
    ensures Divides(w, x * d - h)
  {
    hide Divides;
    DividesTimes(w, h * c - x, d);
    DividesTimes(w, c * d - 1, h);
    DividesSum(w, (c * d - 1) * h, (h * c - x) * d);
    InverseAlgebra(h, c, d, x);
  }

  lemma InverseAlgebra(h: int, c: int, d: int, x: int)
    ensures (c * d - 1) * h - (h * c - x) * d == x * d - h
  {
    assert (c * d - 1) * h == (c * d) * h - h;
    assert (h * c - x) * d == (h * c) * d - x * d;
    assert (h * c) * d == (c * d) * h;
  }
}
