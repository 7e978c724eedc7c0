/** UniqueSequence: a pseudorandom sequence without repetitions. */
module UniqueSequence {
  import opened NumberTheory
  import opened Primality
  import opened Bits
  import opened Words

  const PRIME: nat := 4294967291

  // ----- permute

  /** permute: squares modulo the prime for the lower half, negated squares for the upper half. */
  function Permute(x: nat): (r: nat)
    requires x < W32
    ensures r < W32
  {
    if x >= PRIME then x
    else
      var residue := (x * x) % PRIME;
      if x <= PRIME / 2 then residue else PRIME - residue
  }

  lemma Square(x: nat)
    requires 0 < x < PRIME && Prime(PRIME)
    ensures 0 < (x * x) % PRIME < PRIME
  {
    hide Prime, Divides;
    if (x * x) % PRIME == 0 {
      DividesMod(PRIME, x * x);
      EuclidsLemma(PRIME, x, x);
      DividesSmall(PRIME, x);
    }
  }

  /** Two numbers with the same square are the same up to sign. */
  lemma SquareRoots(x: nat, y: nat)
    requires x < PRIME && y < PRIME && Prime(PRIME) && (x * x) % PRIME == (y * y) % PRIME
    ensures x == y || x + y == 0 || x + y == PRIME
  {
    hide Prime, Divides;
    SameMod(PRIME, x * x, y * y);
    DifferenceOfSquares(x, y);
    EuclidsLemma(PRIME, x - y, x + y);
    if Divides(PRIME, x - y) {
      DividesSmall(PRIME, x - y);
    } else if x + y != 0 {
      DividesBy(PRIME, 1);
      DividesSum(PRIME, x + y, PRIME * 1);
      DividesSmall(PRIME, x + y - PRIME);
    }
  }

  /** No square is the negative of another: -1 is not a square. */
  lemma NoOpposites(x: nat, y: nat)
    requires 0 < x < PRIME && y < PRIME && Prime(PRIME)
    ensures (x * x) % PRIME + (y * y) % PRIME != PRIME
  {
    hide Prime, Divides;
    if (x * x) % PRIME + (y * y) % PRIME == PRIME {
      var u := Inverse(PRIME, x);
      DividesRest(PRIME, x * x);
      DividesRest(PRIME, y * y);
      DividesBy(PRIME, 1);
      DividesSum(PRIME, x * x - (x * x) % PRIME, y * y - (y * y) % PRIME);
      DividesSum(PRIME, x * x + y * y - PRIME, PRIME * 1);
      DividesTimes(PRIME, x * x + y * y, u * u);
      DividesTimes(PRIME, u * x - 1, u * x + 1);
      DividesSum(PRIME, (x * x + y * y) * (u * u), (u * x - 1) * (u * x + 1));
      OppositeAlgebra(x, y, u);
      NoRoot(PRIME, u * y);
    }
  }

  lemma OppositeAlgebra(x: int, y: int, u: int)
    ensures (x * x + y * y) * (u * u) - (u * x - 1) * (u * x + 1) == (u * y) * (u * y) + 1
  {
    DifferenceOfSquares(u * x, 1);
    assert (x * x + y * y) * (u * u) == (x * x) * (u * u) + (y * y) * (u * u);
    assert (x * x) * (u * u) == (u * x) * (u * x) && (y * y) * (u * u) == (u * y) * (u * y) by {
      SquareProduct(u, x);
      SquareProduct(u, y);
    }
  }

  lemma SquareProduct(u: int, x: int)
    ensures (x * x) * (u * u) == (u * x) * (u * x)
  {
    assert (u * x) * (u * x) == u * (x * (u * x));
    assert x * (u * x) == u * (x * x);
    assert u * (u * (x * x)) == (u * u) * (x * x);
  }

  /** permute maps the numbers below the prime to themselves, and fixes those above. */
  lemma PermuteRange(x: nat)
    requires x < W32
    ensures x < PRIME ==> Permute(x) < PRIME
    ensures x >= PRIME ==> Permute(x) == x
  {
    if 0 < x < PRIME {
      Prime4294967291();
      Square(x);
    }
  }

  /** What permute promises of the image `y` of `x`: below the prime, it is a number that is congruent to the square
      of `x` if `x` is in the lower half, and to its negative otherwise; beyond, it is `x`. */
  ghost predicate Permuted(x: int, y: int) {
    if x >= PRIME then y == x
    else 0 <= y < PRIME && Divides(PRIME, if 2 * x < PRIME then y - x * x else y + x * x)
  }

  lemma PermuteIs(x: nat)
    requires x < W32
    ensures Permuted(x, Permute(x))
  {
    if x < PRIME {
      PermuteRange(x);
      var q := x * x / PRIME;
      assert x * x == PRIME * q + (x * x) % PRIME;
      DividesBy(PRIME, -q);
      DividesBy(PRIME, q + 1);
    }
  }

  /** There is one such number. */
  lemma PermutedOnce(x: nat, y: int, z: int)
    requires Permuted(x, y) && Permuted(x, z)
    ensures y == z
  {
    if x < PRIME {
      var u := if 2 * x < PRIME then -(x * x) else x * x;
      DividesSum(PRIME, y + u, z + u);
      DividesSmall(PRIME, y - z);
    }
  }

  /** permute never maps two numbers to one. */
  lemma PermuteInjective(x: nat, y: nat)
    requires x < W32 && y < W32 && Permute(x) == Permute(y)
    ensures x == y
  {
    hide Prime;
    Prime4294967291();
    PermuteRange(x);
    PermuteRange(y);
    if x < PRIME && y < PRIME {
      if x <= PRIME / 2 && y > PRIME / 2 {
        NoOpposites(y, x);
      } else if y <= PRIME / 2 && x > PRIME / 2 {
        NoOpposites(x, y);
      } else {
        SquareRoots(x, y);
      }
    }
  }

  /** The values of permute on the numbers below `n`. */
  ghost function Image(n: nat): set<int>
    requires n <= W32
  {
    if n == 0 then {} else Image(n - 1) + {Permute(n - 1)}
  }

  lemma {:induction false} InImage(n: nat, y: int)
    requires n <= W32 && y in Image(n)
    ensures exists x: nat :: x < n && Permute(x) == y
  {
    hide Permute;
    if y != Permute(n - 1) {
      InImage(n - 1, y);
    }
  }

  lemma {:induction false} ImageSize(n: nat)
    requires n <= W32
    ensures |Image(n)| == n
  {
    hide Permute;
    if n > 0 {
      ImageSize(n - 1);
      if Permute(n - 1) in Image(n - 1) {
        InImage(n - 1, Permute(n - 1));
        var x: nat :| x < n - 1 && Permute(x) == Permute(n - 1);
        PermuteInjective(x, n - 1);
      }
    }
  }

  /** permute reaches every number: with PermuteInjective, it is a bijection on the 32-bit numbers. */
  lemma PermuteOnto(y: nat)
    requires y < W32
    ensures exists x: nat :: x < W32 && Permute(x) == y
  {
    hide Permute, Image;
    ImageSize(W32);
    BelowSize(W32);
    forall x | x in Image(W32) ensures x in Below(W32) { InImage(W32, x); }
    SameSize(Image(W32), Below(W32));
    InImage(W32, y);
  }

  lemma SameSize(a: set<int>, b: set<int>)
    requires a <= b && |a| == |b|
    ensures a == b
  {
    assert b == a + (b - a);
    assert |b| == |a| + |b - a|;
  }

  // ----- next

  lemma Width32()
    ensures Pow2(32) == W32
  {
    Pow2_64();
  }

  /** Exclusive or with a fixed word loses nothing. */
  lemma XorInjective(a: nat, c: nat, b: nat)
    requires a < W32 && c < W32 && Xor(a, b, 32) == Xor(c, b, 32)
    ensures a == c
  {
    hide Xor, Pow2;
    Width32();
    XorTwice(a, b, 32);
    XorTwice(c, b, 32);
  }

  /** What next() returns when curIndex is `i`. */
  function Scramble(i: nat, param0: nat, param1: nat): (r: nat)
    requires i < W32 && param0 < W32 && param1 < W32
    ensures r < W32
  {
    Width32();
    XorBound((Permute(i) + param0) % W32, param1, 32);
    Permute(Xor((Permute(i) + param0) % W32, param1, 32))
  }

  /** What next() promises of its result `r` when curIndex is `i`: the index is permuted, the first parameter is added
      modulo 2^32, the bits that are set in the second are flipped, and the outcome is permuted again. */
  ghost predicate Scrambled(i: int, param0: nat, param1: nat, r: int) {
    exists a: int, b: nat, c: nat ::
      && Permuted(i, a) && b < W32 && Divides(W32, b - (a + param0))
      && c < W32 && Flipped(b, param1, c) && Permuted(c, r)
  }

  ghost predicate Flipped(b: nat, mask: nat, c: nat) {
    forall j: nat :: Bit(c, j) == if Bit(mask, j) == 1 then 1 - Bit(b, j) else Bit(b, j)
  }

  lemma ScrambleIs(i: nat, param0: nat, param1: nat)
    requires i < W32 && param0 < W32 && param1 < W32
    ensures Scrambled(i, param0, param1, Scramble(i, param0, param1))
  {
    hide Permute, Permuted, Xor, Pow2, Flipped;
    Width32();
    var a := Permute(i);
    var b := (a + param0) % W32;
    var c := Xor(b, param1, 32);
    XorBound(b, param1, 32);
    PermuteIs(i);
    PermuteIs(c);
    assert Divides(W32, b - (a + param0)) by {
      assert a + param0 == W32 * ((a + param0) / W32) + b;
      DividesBy(W32, -((a + param0) / W32));
    }
    assert Flipped(b, param1, c) by { XorFlips(b, param1); }
  }

  lemma XorFlips(b: nat, mask: nat)
    requires b < W32 && mask < W32
    ensures Flipped(b, mask, Xor(b, mask, 32))
  {
    hide Xor, Pow2, Bit;
    Width32();
    forall j: nat
      ensures Bit(Xor(b, mask, 32), j) == if Bit(mask, j) == 1 then 1 - Bit(b, j) else Bit(b, j)
    {
      XorBit(b, mask, 32, j);
      if j >= 32 {
        HighBit(b, 32, j);
        HighBit(mask, 32, j);
      }
    }
  }

  lemma ScrambleInjective(i: nat, j: nat, param0: nat, param1: nat)
    requires i < W32 && j < W32 && param0 < W32 && param1 < W32
    requires Scramble(i, param0, param1) == Scramble(j, param0, param1)
    ensures i == j
  {
    hide Permute, Xor, Pow2;
    Width32();
    var a, c := (Permute(i) + param0) % W32, (Permute(j) + param0) % W32;
    XorBound(a, param1, 32);
    XorBound(c, param1, 32);
    PermuteInjective(Xor(a, param1, 32), Xor(c, param1, 32));
    XorInjective(a, c, param1);
    PermuteInjective(i, j);
  }

  /** The `k`th output of a sequence. */
  function Output(start: nat, param0: nat, param1: nat, k: nat): nat
    requires param0 < W32 && param1 < W32
  {
    Scramble((start + k) % W32, param0, param1)
  }

  /** Any 2^32 consecutive outputs are distinct, whatever the parameters. */
  lemma OutputsDistinct(start: nat, param0: nat, param1: nat, j: nat, k: nat)
    requires start < W32 && param0 < W32 && param1 < W32 && j < k < j + W32
    ensures Output(start, param0, param1, j) != Output(start, param0, param1, k)
  {
    hide Scramble;
    if Output(start, param0, param1, j) == Output(start, param0, param1, k) {
      ScrambleInjective((start + j) % W32, (start + k) % W32, param0, param1);
    }
  }

  class UniqueSequence {
    var curIndex: nat
    var param0: nat
    var param1: nat
    ghost var start: nat
    ghost var count: nat

    ghost predicate Valid()
      reads this
    {
      start < W32 && param0 < W32 && param1 < W32 && curIndex == (start + count) % W32
    }

    constructor (startIndex: nat, p0: nat, p1: nat)
      requires startIndex < W32 && p0 < W32 && p1 < W32
      ensures Valid() && start == startIndex && count == 0 && param0 == p0 && param1 == p1
    {
      curIndex, param0, param1 := startIndex, p0, p1;
      start, count := startIndex, 0;
    }

    /** next */
    method Next() returns (r: nat)
      requires Valid()
      modifies this`curIndex, this`count
      ensures Valid() && count == old(count) + 1 && r == Output(start, param0, param1, old(count))
      ensures Scrambled((start + old(count)) % W32, param0, param1, r)
    {
      hide Permute, Xor, Scrambled;
      ScrambleIs(curIndex, param0, param1);
      var i := curIndex;
      curIndex := (curIndex + 1) % W32;
      Width32();
      XorBound((Permute(i) + param0) % W32, param1, 32);
      r := Permute(Xor((Permute(i) + param0) % W32, param1, 32));
      count := count + 1;
    }
  }
}
