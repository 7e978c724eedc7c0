/** Random: the xorshift128+ generator. */
module Random {
  import opened Bits
  import opened Words
  import opened Avalanche

  /** The two state words. */
  datatype Pair = Pair(s0: nat, s1: nat)

  predicate Sized(w: Pair) {
    w.s0 < Pow2(64) && w.s1 < Pow2(64)
  }

  // ----- The state step

  function Xor64(a: nat, b: nat): (r: nat) {
    Xor(a, b, 64)
  }

  /** What next64 makes of the state. */
  function Advance(w: Pair): Pair {
    var x := Xor64(w.s0, Shl(w.s0, 23));
    Pair(w.s1, Xor64(Xor64(Xor64(x, w.s1), Sh(x, 17)), Sh(w.s1, 26)))
  }

  /** The state before. */
  function Rewind(w: Pair): Pair {
    var y := Xor64(Xor64(w.s1, w.s0), Sh(w.s0, 26));
    Pair(Unshift23(Unshift17(y)), w.s0)
  }

  /** Undoing x ^ x >> 17. */
  function Unshift17(y: nat): (x: nat) {
    Xor64(Xor64(Xor64(y, Sh(y, 17)), Sh(y, 34)), Sh(y, 51))
  }

  /** Undoing x ^ x << 23. */
  function Unshift23(x: nat): (s: nat) {
    Xor64(Xor64(x, Shl(x, 23)), Shl(x, 46))
  }

  lemma XorBit64(a: nat, b: nat, i: nat)
    ensures i < 64 ==> Bit(Xor64(a, b), i) == (Bit(a, i) + Bit(b, i)) % 2
    ensures Xor64(a, b) < Pow2(64)
  {
    hide Bit, Pow2;
    XorBit(a, b, 64, i);
    XorBound(a, b, 64);
  }

  /** A left shift moves the bits up and lets zeros in. */
  lemma ShlBits(s: nat, n: nat, j: nat)
    requires s < Pow2(64) && n < 64 && j < 64
    ensures Bit(Shl(s, n), j) == if j < n then 0 else Bit(s, j - n)
  {
    hide Shl, Pow2;
    Pow2_64();
    if j < n {
      LowZeros(s, n, j);
    } else {
      ShlBit(s, n, j - n);
    }
  }

  lemma {:induction false} LowZeros(s: nat, n: nat, j: nat)
    requires j < n && j < 63
    ensures Bit(Shl(s, n), j) == 0
  {
    var x := Shl(s, n - 1);
    if j == 0 {
      assert ((2 * x) % W64) % 2 == 0;
    } else {
      LowZeros(s, n - 1, j - 1);
      DoubleBit(x, j - 1);
    }
  }

  /** The bit of `a` at `i`, zero if there is none. */
  function BitAt(a: nat, i: int): (b: nat)
    ensures b < 2
  {
    if 0 <= i < 64 then Bit(a, i) else 0
  }

  lemma ShAt(a: nat, s: nat, i: nat)
    requires a < Pow2(64) && i < 64
    ensures Bit(Sh(a, s), i) == BitAt(a, i + s)
  {
    hide Bit, Pow2;
    ShBit(a, s, i);
    if i + s >= 64 { HighBit(a, 64, i + s); }
  }

  lemma ShlAt(a: nat, n: nat, i: nat)
    requires a < Pow2(64) && i < 64 && n < 64
    ensures Bit(Shl(a, n), i) == BitAt(a, i - n)
  {
    hide Bit, Pow2;
    ShlBits(a, n, i);
  }

  function Fold17(x: nat): (y: nat) {
    Xor64(x, Sh(x, 17))
  }

  function Fold23(s: nat): (x: nat) {
    Xor64(s, Shl(s, 23))
  }

  lemma Fold17At(x: nat, i: nat)
    requires x < Pow2(64)
    ensures BitAt(Fold17(x), i) == (BitAt(x, i) + BitAt(x, i + 17)) % 2
  {
    hide Bit, Pow2, Xor64, Sh;
    if i < 64 {
      XorBit64(x, Sh(x, 17), i);
      ShAt(x, 17, i);
    }
  }

  lemma Fold23At(s: nat, i: int)
    requires s < Pow2(64) && i < 64
    ensures BitAt(Fold23(s), i) == (BitAt(s, i) + BitAt(s, i - 23)) % 2
  {
    hide Bit, Pow2, Xor64, Shl;
    if i >= 0 {
      XorBit64(s, Shl(s, 23), i);
      ShlAt(s, 23, i);
    }
  }

  lemma Unshift17At(y: nat, i: nat)
    requires y < Pow2(64)
    ensures BitAt(Unshift17(y), i) == (BitAt(y, i) + BitAt(y, i + 17) + BitAt(y, i + 34) + BitAt(y, i + 51)) % 2
  {
    hide Bit, Pow2, Xor64, Sh;
    if i < 64 {
      XorBit64(y, Sh(y, 17), i);
      XorBit64(Xor64(y, Sh(y, 17)), Sh(y, 34), i);
      XorBit64(Xor64(Xor64(y, Sh(y, 17)), Sh(y, 34)), Sh(y, 51), i);
      ShAt(y, 17, i);
      ShAt(y, 34, i);
      ShAt(y, 51, i);
      AddBits(Bit(y, i), BitAt(y, i + 17), BitAt(y, i + 34), BitAt(y, i + 51));
    }
  }

  lemma AddBits(a: nat, b: nat, c: nat, d: nat)
    ensures (((a + b) % 2 + c) % 2 + d) % 2 == (a + b + c + d) % 2
  {
  }

  lemma Unshift23At(x: nat, i: int)
    requires x < Pow2(64) && i < 64
    ensures BitAt(Unshift23(x), i) == (BitAt(x, i) + BitAt(x, i - 23) + BitAt(x, i - 46)) % 2
  {
    hide Bit, Pow2, Xor64, Shl;
    if i >= 0 {
      XorBit64(x, Shl(x, 23), i);
      XorBit64(Xor64(x, Shl(x, 23)), Shl(x, 46), i);
      ShlAt(x, 23, i);
      ShlAt(x, 46, i);
      AddBits(Bit(x, i), BitAt(x, i - 23), BitAt(x, i - 46), 0);
    }
  }

  /** Words with the same bits are the same. */
  lemma Same64(a: nat, b: nat)
    requires a < Pow2(64) && b < Pow2(64) && forall i: nat | i < 64 :: BitAt(a, i) == BitAt(b, i)
    ensures a == b
  {
    hide Bit, Pow2;
    forall i: nat | i < 64 ensures Bit(a, i) == Bit(b, i) { assert BitAt(a, i) == BitAt(b, i); }
    SameBits(a, b, 64);
  }

  lemma Xor64Bound(a: nat, b: nat)
    ensures Xor64(a, b) < Pow2(64)
  {
    XorBound(a, b, 64);
  }

  lemma Unfolded17(x: nat, i: nat)
    requires x < Pow2(64) && Fold17(x) < Pow2(64)
    ensures BitAt(Unshift17(Fold17(x)), i) == BitAt(x, i)
  {
    hide Bit, Pow2, Xor64, Sh, Unshift17, Fold17, BitAt;
    Unshift17At(Fold17(x), i);
    Fold17At(x, i);
    Fold17At(x, i + 17);
    Fold17At(x, i + 34);
    Fold17At(x, i + 51);
    NoBitAt(x, i + 68);
    Telescope(BitAt(x, i), BitAt(x, i + 17), BitAt(x, i + 34), BitAt(x, i + 51));
  }

  lemma Refolded17(x: nat, i: nat)
    requires x < Pow2(64) && Unshift17(x) < Pow2(64)
    ensures BitAt(Fold17(Unshift17(x)), i) == BitAt(x, i)
  {
    hide Bit, Pow2, Xor64, Sh, Unshift17, Fold17, BitAt;
    Fold17At(Unshift17(x), i);
    Unshift17At(x, i);
    Unshift17At(x, i + 17);
    NoBitAt(x, i + 68);
    Collapse(BitAt(x, i), BitAt(x, i + 17), BitAt(x, i + 34), BitAt(x, i + 51));
  }

  lemma Undo17(x: nat)
    requires x < Pow2(64)
    ensures Unshift17(Fold17(x)) == x && Fold17(Unshift17(x)) == x && Unshift17(x) < Pow2(64) && Fold17(x) < Pow2(64)
  {
    hide Bit, Pow2, Xor64, Sh, Unshift17, Fold17, BitAt;
    Bounds17(x);
    Bounds17(Fold17(x));
    Bounds17(Unshift17(x));
    forall i: nat | i < 64
      ensures BitAt(Unshift17(Fold17(x)), i) == BitAt(x, i) && BitAt(Fold17(Unshift17(x)), i) == BitAt(x, i)
    {
      Unfolded17(x, i);
      Refolded17(x, i);
    }
    Same64(Unshift17(Fold17(x)), x);
    Same64(Fold17(Unshift17(x)), x);
  }

  /** Sums of bits in which all but the first occur twice. */
  lemma Telescope(a: nat, b: nat, c: nat, d: nat)
    requires a < 2
    ensures ((a + b) % 2 + (b + c) % 2 + (c + d) % 2 + (d + 0) % 2) % 2 == a
  {
    var i, j, k, l := (a + b) / 2, (b + c) / 2, (c + d) / 2, d / 2;
    Evenly((a + b) % 2 + (b + c) % 2 + (c + d) % 2 + (d + 0) % 2, a, b + c + d - i - j - k - l);
  }

  lemma Evenly(x: int, a: int, m: int)
    requires x == a + 2 * m
    ensures x % 2 == a % 2
  {
  }

  lemma Collapse(a: nat, b: nat, c: nat, d: nat)
    requires a < 2
    ensures ((a + b + c + d) % 2 + (b + c + d + 0) % 2) % 2 == a
  {
    var i, j := (a + b + c + d) / 2, (b + c + d) / 2;
    Evenly((a + b + c + d) % 2 + (b + c + d + 0) % 2, a, b + c + d - i - j);
  }

  lemma NoBitAt(x: nat, i: int)
    requires i < 0 || i >= 64
    ensures BitAt(x, i) == 0
  {
  }

  lemma Bounds17(x: nat)
    ensures Unshift17(x) < Pow2(64) && Fold17(x) < Pow2(64)
  {
    hide Pow2, Xor64;
    Xor64Bound(Xor64(Xor64(x, Sh(x, 17)), Sh(x, 34)), Sh(x, 51));
    Xor64Bound(x, Sh(x, 17));
  }

  lemma Bounds23(x: nat)
    ensures Unshift23(x) < Pow2(64) && Fold23(x) < Pow2(64)
  {
    hide Pow2, Xor64;
    Xor64Bound(Xor64(x, Shl(x, 23)), Shl(x, 46));
    Xor64Bound(x, Shl(x, 23));
  }

  lemma Unfolded23(x: nat, i: nat)
    requires x < Pow2(64) && Fold23(x) < Pow2(64) && i < 64
    ensures BitAt(Unshift23(Fold23(x)), i) == BitAt(x, i)
  {
    hide Bit, Pow2, Xor64, Shl, Unshift23, Fold23, BitAt;
    Unshift23At(Fold23(x), i);
    Fold23At(x, i);
    Fold23At(x, i - 23);
    Fold23At(x, i - 46);
    NoBitAt(x, i - 69);
    Telescope(BitAt(x, i), BitAt(x, i - 23), BitAt(x, i - 46), 0);
  }

  lemma Refolded23(x: nat, i: nat)
    requires x < Pow2(64) && Unshift23(x) < Pow2(64) && i < 64
    ensures BitAt(Fold23(Unshift23(x)), i) == BitAt(x, i)
  {
    hide Bit, Pow2, Xor64, Shl, Unshift23, Fold23, BitAt;
    Fold23At(Unshift23(x), i);
    Unshift23At(x, i);
    Unshift23At(x, i - 23);
    NoBitAt(x, i - 69);
    Collapse(BitAt(x, i), BitAt(x, i - 23), BitAt(x, i - 46), 0);
  }

  lemma Undo23(x: nat)
    requires x < Pow2(64)
    ensures Unshift23(Fold23(x)) == x && Fold23(Unshift23(x)) == x && Unshift23(x) < Pow2(64) && Fold23(x) < Pow2(64)
  {
    hide Bit, Pow2, Xor64, Shl, Unshift23, Fold23, BitAt;
    Bounds23(x);
    Bounds23(Fold23(x));
    Bounds23(Unshift23(x));
    forall i: nat | i < 64
      ensures BitAt(Unshift23(Fold23(x)), i) == BitAt(x, i) && BitAt(Fold23(Unshift23(x)), i) == BitAt(x, i)
    {
      Unfolded23(x, i);
      Refolded23(x, i);
    }
    Same64(Unshift23(Fold23(x)), x);
    Same64(Fold23(Unshift23(x)), x);
  }

  // ----- The step is invertible

  /** The second word that the step makes of `x`, its folded first word, and the old second word `a`. */
  function Mixed(x: nat, a: nat): (r: nat) {
    Xor64(Xor64(Xor64(x, a), Sh(x, 17)), Sh(a, 26))
  }

  function Unmixed(b: nat, a: nat): (y: nat) {
    Xor64(Xor64(b, a), Sh(a, 26))
  }

  lemma MixedAt(x: nat, a: nat, i: nat)
    requires x < Pow2(64) && a < Pow2(64) && i < 64
    ensures BitAt(Mixed(x, a), i) == (BitAt(x, i) + BitAt(a, i) + BitAt(x, i + 17) + BitAt(a, i + 26)) % 2
  {
    hide Bit, Pow2, Xor64, Sh;
    XorBit64(x, a, i);
    XorBit64(Xor64(x, a), Sh(x, 17), i);
    XorBit64(Xor64(Xor64(x, a), Sh(x, 17)), Sh(a, 26), i);
    ShAt(x, 17, i);
    ShAt(a, 26, i);
    AddBits(Bit(x, i), Bit(a, i), BitAt(x, i + 17), BitAt(a, i + 26));
  }

  lemma UnmixedAt(b: nat, a: nat, i: nat)
    requires b < Pow2(64) && a < Pow2(64) && i < 64
    ensures BitAt(Unmixed(b, a), i) == (BitAt(b, i) + BitAt(a, i) + BitAt(a, i + 26)) % 2
  {
    hide Bit, Pow2, Xor64, Sh;
    XorBit64(b, a, i);
    XorBit64(Xor64(b, a), Sh(a, 26), i);
    ShAt(a, 26, i);
    AddBits(Bit(b, i), Bit(a, i), BitAt(a, i + 26), 0);
  }

  lemma MixBounds(x: nat, a: nat)
    ensures Mixed(x, a) < Pow2(64) && Unmixed(x, a) < Pow2(64)
  {
    hide Pow2, Xor64;
    Xor64Bound(Xor64(Xor64(x, a), Sh(x, 17)), Sh(a, 26));
    Xor64Bound(Xor64(x, a), Sh(a, 26));
  }

  /** Taking the old second word out of the new one leaves the folded first word, folded again. */
  lemma Unmix(x: nat, a: nat)
    requires x < Pow2(64) && a < Pow2(64)
    ensures Unmixed(Mixed(x, a), a) == Fold17(x)
  {
    hide Bit, Pow2, Xor64, Sh, Mixed, Unmixed, Fold17, BitAt;
    MixBounds(x, a);
    MixBounds(Mixed(x, a), a);
    Bounds17(x);
    forall i: nat | i < 64 ensures BitAt(Unmixed(Mixed(x, a), a), i) == BitAt(Fold17(x), i) {
      UnmixedAt(Mixed(x, a), a, i);
      MixedAt(x, a, i);
      Fold17At(x, i);
      CancelBits(BitAt(x, i), BitAt(a, i), BitAt(x, i + 17), BitAt(a, i + 26));
    }
    Same64(Unmixed(Mixed(x, a), a), Fold17(x));
  }

  lemma CancelBits(a: nat, b: nat, c: nat, d: nat)
    ensures ((a + b + c + d) % 2 + b + d) % 2 == (a + c) % 2
  {
  }

  /** Putting it back in gives the new second word again. */
  lemma Remix(x: nat, a: nat, b: nat)
    requires x < Pow2(64) && a < Pow2(64) && b < Pow2(64) && Fold17(x) == Unmixed(b, a)
    ensures Mixed(x, a) == b
  {
    hide Bit, Pow2, Xor64, Sh, Mixed, Unmixed, Fold17, BitAt;
    MixBounds(x, a);
    forall i: nat | i < 64 ensures BitAt(Mixed(x, a), i) == BitAt(b, i) {
      MixedAt(x, a, i);
      UnmixedAt(b, a, i);
      Fold17At(x, i);
      SwapBits(BitAt(x, i), BitAt(a, i), BitAt(x, i + 17), BitAt(a, i + 26), BitAt(b, i));
    }
    Same64(Mixed(x, a), b);
  }

  lemma SwapBits(a: nat, b: nat, c: nat, d: nat, e: nat)
    requires e < 2 && (a + c) % 2 == (e + b + d) % 2
    ensures (a + b + c + d) % 2 == e
  {
  }

  /** The state step is invertible: every state has exactly one predecessor. */
  lemma Invertible(w: Pair)
    requires Sized(w)
    ensures Sized(Advance(w)) && Rewind(Advance(w)) == w
    ensures Sized(Rewind(w)) && Advance(Rewind(w)) == w
  {
    hide Pow2, Xor64, Sh, Shl, Unshift17, Unshift23;
    var x := Fold23(w.s0);
    Undo23(w.s0);
    MixBounds(x, w.s1);
    Unmix(x, w.s1);
    Undo17(x);
    var y := Unmixed(w.s1, w.s0);
    MixBounds(w.s1, w.s0);
    Undo17(y);
    var z := Unshift17(y);
    Undo23(z);
    Remix(z, w.s0, w.s1);
  }

  /** The step bit by bit: the second word moves up, and each bit of the new one is the parity of six bits of the old
      words, of which those beyond a word are zero. */
  lemma AdvanceBits(w: Pair, i: nat)
    requires Sized(w) && i < 64
    ensures Advance(w).s0 == w.s1
    ensures BitAt(Advance(w).s1, i) ==
      (BitAt(w.s0, i) + BitAt(w.s0, i - 23) + BitAt(w.s1, i) + BitAt(w.s1, i + 26)
       + if i < 47 then BitAt(w.s0, i + 17) + BitAt(w.s0, i - 6) else 0) % 2
  {
    hide Bit, Pow2, Xor64, Sh, Shl, Mixed, Fold23, BitAt;
    var x := Fold23(w.s0);
    Bounds23(w.s0);
    MixedAt(x, w.s1, i);
    Fold23At(w.s0, i);
    assert Advance(w).s1 == Mixed(x, w.s1) by { AdvanceMixed(w); }
    if i < 47 {
      Fold23At(w.s0, i + 17);
      SixBits(BitAt(w.s0, i) + BitAt(w.s0, i - 23), BitAt(w.s1, i), BitAt(w.s0, i + 17) + BitAt(w.s0, i - 6),
              BitAt(w.s1, i + 26));
    } else {
      NoBitAt(x, i + 17);
      SixBits(BitAt(w.s0, i) + BitAt(w.s0, i - 23), BitAt(w.s1, i), 0, BitAt(w.s1, i + 26));
    }
  }

  lemma AdvanceMixed(w: Pair)
    ensures Advance(w) == Pair(w.s1, Mixed(Fold23(w.s0), w.s1))
  {
    hide Xor64, Sh, Shl;
  }

  lemma SixBits(a: nat, b: nat, c: nat, d: nat)
    ensures (a % 2 + b + c % 2 + d) % 2 == (a + b + c + d) % 2
  {
  }

  const ZERO: Pair := Pair(0, 0)

  /** No state but zero steps to zero. */
  lemma AdvanceZero(w: Pair)
    requires Sized(w)
    ensures Advance(w) == ZERO <==> w == ZERO
  {
    hide Advance, Rewind, Pow2;
    Invertible(w);
    ZeroStays();
  }

  // ----- The step fixes only zero

  /** A bit of `a` is set. */
  predicate On(a: nat, i: int) {
    BitAt(a, i) == 1
  }

  /** A state that the step fixes has equal words `a`, and those satisfy this. */
  predicate Fixed(a: nat) {
    a < Pow2(64) && Mixed(Fold23(a), a) == a
  }

  /** The equation that a fixed word's bits satisfy at `i`. */
  lemma FixedBit(a: nat, i: nat)
    requires Fixed(a) && i < 64
    ensures if i < 47 then (On(a, i) != On(a, i - 23)) == ((On(a, i + 17) != On(a, i - 6)) != On(a, i + 26)) else On(a, i) == On(a, i - 23)
  {
    hide Bit, Pow2, Xor64, Sh, Shl, Mixed, Fold23, BitAt;
    var x := Fold23(a);
    Bounds23(a);
    MixedAt(x, a, i);
    Fold23At(a, i);
    if i < 47 {
      Fold23At(a, i + 17);
      FixedSum(BitAt(a, i), BitAt(a, i - 23), BitAt(a, i + 17), BitAt(a, i - 6), BitAt(a, i + 26));
    } else {
      NoBitAt(x, i + 17);
      NoBitAt(a, i + 26);
      FixedSum(BitAt(a, i), BitAt(a, i - 23), 0, 0, 0);
    }
  }

  lemma FixedSum(a: nat, b: nat, c: nat, d: nat, e: nat)
    requires a < 2 && b < 2 && c < 2 && d < 2 && e < 2
    requires ((a + b) % 2 + a + (c + d) % 2 + e) % 2 == a
    ensures ((a == 1) != (b == 1)) == (((c == 1) != (d == 1)) != (e == 1))
  {
    assert (a + b) % 2 == if a == b then 0 else 1;
    assert (c + d) % 2 == if c == d then 0 else 1;
  }

  lemma NoneOn(a: nat, i: int)
    requires i < 0 || i >= 64
    ensures !On(a, i)
  {
    hide BitAt;
    NoBitAt(a, i);
  }

  /** The highest bits repeat lower ones. */
  lemma HighBits(a: nat, i: nat)
    requires Fixed(a) && 38 <= i < 64
    ensures On(a, i) == On(a, i - 23)
  {
    hide Fixed, On;
    FixedBit(a, i);
    if i < 47 {
      FixedBit(a, i + 17);
      NoneOn(a, i + 26);
    }
  }

  /** Equations in the bits from 21 on. */
  lemma MiddleBits(a: nat, i: nat)
    requires Fixed(a) && 21 <= i < 38
    ensures On(a, i + 3) == (On(a, i) != (i >= 23 && On(a, i - 23)))
  {
    hide Fixed, On;
    FixedBit(a, i);
    HighBits(a, i + 17);
    HighBits(a, i + 26);
    if i < 23 { NoneOn(a, i - 23); }
  }

  lemma LowerBits(a: nat, i: nat)
    requires Fixed(a) && 12 <= i < 21
    ensures On(a, i) == ((On(a, i + 17) != On(a, i - 6)) != On(a, i + 3))
  {
    hide Fixed, On;
    FixedBit(a, i);
    HighBits(a, i + 26);
    NoneOn(a, i - 23);
  }

  lemma LowestBits(a: nat, i: nat)
    requires Fixed(a) && i < 12
    ensures On(a, i) == ((On(a, i + 17) != (i >= 6 && On(a, i - 6))) != On(a, i + 26))
  {
    hide Fixed, On;
    FixedBit(a, i);
    NoneOn(a, i - 23);
    if i < 6 { NoneOn(a, i - 6); }
  }

  /** Together the equations leave only zero. */
  lemma FixedLow(a: nat)
    requires Fixed(a)
    ensures !On(a, 0) && !On(a, 1) && !On(a, 2) && !On(a, 3) && !On(a, 4) && !On(a, 5) && !On(a, 6) && !On(a, 7)
    ensures !On(a, 8)
    ensures !On(a, 9) && !On(a, 10) && !On(a, 11) && !On(a, 12) && !On(a, 13) && !On(a, 14) && !On(a, 15) && !On(a, 16)
    ensures !On(a, 17)
    ensures !On(a, 18) && !On(a, 19) && !On(a, 20) && !On(a, 21) && !On(a, 22) && !On(a, 23) && !On(a, 24) && !On(a, 25)
    ensures !On(a, 26)
    ensures !On(a, 27) && !On(a, 28) && !On(a, 29) && !On(a, 30) && !On(a, 31) && !On(a, 32) && !On(a, 33) && !On(a, 34)
    ensures !On(a, 35)
    ensures !On(a, 36) && !On(a, 37) && !On(a, 38) && !On(a, 39) && !On(a, 40)
  {
    hide Fixed, On;
    LowestBits(a, 0); LowestBits(a, 1); LowestBits(a, 2); LowestBits(a, 3); LowestBits(a, 4); LowestBits(a, 5);
    LowestBits(a, 6); LowestBits(a, 7); LowestBits(a, 8); LowestBits(a, 9); LowestBits(a, 10); LowestBits(a, 11);
    LowerBits(a, 12); LowerBits(a, 13); LowerBits(a, 14); LowerBits(a, 15); LowerBits(a, 16); LowerBits(a, 17);
    LowerBits(a, 18); LowerBits(a, 19); LowerBits(a, 20);
    MiddleBits(a, 21); MiddleBits(a, 22); MiddleBits(a, 23); MiddleBits(a, 24); MiddleBits(a, 25); MiddleBits(a, 26);
    MiddleBits(a, 27); MiddleBits(a, 28); MiddleBits(a, 29); MiddleBits(a, 30); MiddleBits(a, 31); MiddleBits(a, 32);
    MiddleBits(a, 33); MiddleBits(a, 34); MiddleBits(a, 35); MiddleBits(a, 36); MiddleBits(a, 37);
    HighBits(a, 38); HighBits(a, 39); HighBits(a, 40);
  }

  lemma FixedOff(a: nat, i: nat)
    requires Fixed(a) && i < 64
    ensures !On(a, i)
  {
    hide Fixed, On;
    FixedLow(a);
    if i >= 38 { HighBits(a, i); }
  }

  lemma FixedZero(a: nat)
    requires Fixed(a)
    ensures a == 0
  {
    hide Fixed, BitAt, Pow2;
    forall i: nat | i < 64 ensures BitAt(a, i) == BitAt(0, i) {
      FixedOff(a, i);
      ZeroBit(i);
    }
    assert a < Pow2(64) && 0 < Pow2(64) by { FixedBound(a); }
    Same64(a, 0);
  }

  lemma FixedBound(a: nat)
    requires Fixed(a)
    ensures a < Pow2(64)
  {
  }

  lemma ZeroBit(i: nat)
    ensures BitAt(0, i) == 0
  {
    hide Bit;
    NoBits(i);
  }

  /** The state step fixes zero and nothing else. */
  lemma FixesOnlyZero(w: Pair)
    requires Sized(w)
    ensures Advance(w) == w <==> w == ZERO
  {
    hide Pow2, Xor64, Sh, Shl;
    ZeroStays();
    if Advance(w) == w {
      assert Fixed(w.s0);
      FixedZero(w.s0);
    }
  }

  lemma ZeroStays()
    ensures Advance(ZERO) == ZERO && Rewind(ZERO) == ZERO
  {
    hide Sh, Shl, Xor;
    XorZero(64);
    ZeroShifts();
  }

  lemma ZeroShifts()
    ensures Sh(0, 17) == 0 && Sh(0, 26) == 0 && Sh(0, 34) == 0 && Sh(0, 51) == 0 && Shl(0, 23) == 0 && Shl(0, 46) == 0
  {
    ShZero(0, 17);
    ShZero(0, 26);
    ShZero(0, 34);
    ShZero(0, 51);
    ShlZero(23);
    ShlZero(46);
  }

  lemma {:induction false} ShlZero(n: nat)
    ensures Shl(0, n) == 0
  {
    if n > 0 {
      ShlZero(n - 1);
    }
  }

  // ----- The generator

  /** `t | 1` */
  function OrOne(t: nat): (r: nat)
    ensures r > 0
  {
    if t % 2 == 0 then t + 1 else t
  }

  lemma OrOneBound(t: nat)
    requires t < Pow2(64)
    ensures OrOne(t) < Pow2(64)
  {
    hide Pow2;
    Pow2_64();
  }

  /** A seed word is never zero. */
  lemma SeedWord(t: nat)
    requires t < Pow2(64)
    ensures 0 < Avalanche64(OrOne(t)) < Pow2(64)
  {
    hide Avalanche64, Pow2, OrOne;
    OrOneBound(t);
    Avalanche64Bound(OrOne(t));
    Avalanche64Zero(OrOne(t));
  }

  /** The seed words. */
  function Seeds(time: nat, timer: nat, tid: nat): Pair {
    Pair(Avalanche64(OrOne(Avalanche64(time))), Avalanche64(OrOne(Mingled(timer, tid))))
  }

  function Mingled(timer: nat, tid: nat): (t: nat)
    ensures t < Pow2(64)
  {
    (Avalanche64(timer) + Shl(Avalanche64(tid), 1)) % Pow2(64)
  }

  function Steps(w: Pair, n: nat): Pair {
    if n == 0 then w else Advance(Steps(w, n - 1))
  }

  /** The seed words are not zero. */
  lemma Seeded(time: nat, timer: nat, tid: nat)
    requires time < Pow2(64) && timer < Pow2(64) && tid < Pow2(64)
    ensures var w := Seeds(time, timer, tid); Sized(w) && w != ZERO && Steps(w, 0) == w
  {
    hide Avalanche64, Pow2, OrOne, Mingled, Advance;
    Avalanche64Bound(time);
    SeedWord(Avalanche64(time));
    SeedWord(Mingled(timer, tid));
    StepsNext(Seeds(time, timer, tid), 0);
  }

  lemma StepsNext(w: Pair, n: nat)
    ensures Steps(w, 0) == w && Steps(w, n + 1) == Advance(Steps(w, n))
  {
    hide Advance;
  }

  lemma {:induction false} StepsInjective(w: Pair, v: Pair, n: nat)
    requires Sized(w) && Sized(v) && Steps(w, n) == Steps(v, n)
    ensures w == v && Sized(Steps(w, n))
  {
    hide Advance, Rewind, Pow2;
    StepsSized(w, n);
    if n > 0 {
      StepsSized(w, n - 1);
      StepsSized(v, n - 1);
      Invertible(Steps(w, n - 1));
      Invertible(Steps(v, n - 1));
      StepsInjective(w, v, n - 1);
    }
  }

  lemma {:induction false} StepsSized(w: Pair, n: nat)
    requires Sized(w)
    ensures Sized(Steps(w, n))
  {
    hide Advance, Rewind, Pow2;
    if n > 0 {
      StepsSized(w, n - 1);
      Invertible(Steps(w, n - 1));
    }
  }

  /** The environment makes a difference: two generators start in the same state only if the mixed times agree but for
      the lowest bit, and likewise the mixed timers and thread ids. */
  lemma SeedsTell(time: nat, timer: nat, tid: nat, time': nat, timer': nat, tid': nat)
    requires time < Pow2(64) && timer < Pow2(64) && tid < Pow2(64)
    requires time' < Pow2(64) && timer' < Pow2(64) && tid' < Pow2(64)
    ensures Steps(Seeds(time, timer, tid), 10) == Steps(Seeds(time', timer', tid'), 10) <==>
      Avalanche64(time) / 2 == Avalanche64(time') / 2 && Mingled(timer, tid) / 2 == Mingled(timer', tid') / 2
  {
    hide Advance, Pow2, Avalanche64, Deavalanche64, Mingled, OrOne;
    var t, u, t', u' := Avalanche64(time), Mingled(timer, tid), Avalanche64(time'), Mingled(timer', tid');
    Avalanche64Bound(time);
    Avalanche64Bound(time');
    SeedWord(t);
    SeedWord(u);
    SeedWord(t');
    SeedWord(u');
    SameSeed(t, t');
    SameSeed(u, u');
    if Steps(Seeds(time, timer, tid), 10) == Steps(Seeds(time', timer', tid'), 10) {
      StepsInjective(Seeds(time, timer, tid), Seeds(time', timer', tid'), 10);
    }
  }

  lemma SameSeed(t: nat, u: nat)
    requires t < Pow2(64) && u < Pow2(64)
    ensures Avalanche64(OrOne(t)) == Avalanche64(OrOne(u)) <==> t / 2 == u / 2
  {
    hide Pow2, Avalanche64, Deavalanche64;
    OrOneBound(t);
    OrOneBound(u);
    Inverse64(OrOne(t));
    Inverse64(OrOne(u));
  }

  class Random {
    var s0: nat
    var s1: nat

    /** The state is never all zero. */
    ghost predicate Valid()
      reads this
    {
      Sized(Pair(s0, s1)) && Pair(s0, s1) != ZERO
    }

    /** The current time, the timer and the thread id are what the environment says. */
    constructor (time: nat, timer: nat, tid: nat)
      requires time < Pow2(64) && timer < Pow2(64) && tid < Pow2(64)
      ensures Valid() && Pair(s0, s1) == Steps(Seeds(time, timer, tid), 10)
    {
      hide Avalanche64, Pow2, OrOne, Advance, Steps, Shl;
      var t := Avalanche64(time);
      s0 := Avalanche64(OrOne(t));
      var t' := (Avalanche64(timer) + Shl(Avalanche64(tid), 1)) % Pow2(64);
      s1 := Avalanche64(OrOne(t'));
      new;
      Seeded(time, timer, tid);
      for i := 0 to 10
        invariant Valid() && Pair(s0, s1) == Steps(Seeds(time, timer, tid), i)
      {
        StepsNext(Seeds(time, timer, tid), i);
        var r := Next64();
      }
    }

    /** next64 */
    method Next64() returns (r: nat)
      requires Valid()
      modifies this
      ensures Valid() && Pair(s0, s1) == Advance(old(Pair(s0, s1))) && r == (s1 + s0) % Pow2(64)
    {
      hide Xor, Sh, Shl, Pow2;
      Invertible(Pair(s0, s1));
      AdvanceZero(Pair(s0, s1));
      var x := s0;
      var y := s1;
      s0 := y;
      x := Xor(x, Shl(x, 23), 64);
      s1 := Xor(Xor(Xor(x, y, 64), Sh(x, 17), 64), Sh(y, 26), 64);
      r := (s1 + y) % Pow2(64);
    }
  }
}
