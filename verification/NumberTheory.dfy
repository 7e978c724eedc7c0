/** Primes, inverses, powers and sums of two squares. */
module NumberTheory {

  // ----- Divisibility

  ghost predicate Divides(d: int, x: int) {
    exists k :: x == d * k
  }

  lemma DividesBy(d: int, k: int)
    ensures Divides(d, d * k)
  {
  }

  lemma DividesTimes(d: int, x: int, c: int)
    requires Divides(d, x)
    ensures Divides(d, x * c)
  {
    var k :| x == d * k;
    assert x * c == d * (k * c);
  }

  lemma DividesSum(d: int, x: int, y: int)
    requires Divides(d, x) && Divides(d, y)
    ensures Divides(d, x + y) && Divides(d, x - y)
  {
    var j, k :| x == d * j && y == d * k;
    assert x + y == d * (j + k) && x - y == d * (j - k);
  }

  lemma DividesTrans(c: int, d: int, x: int)
    requires Divides(c, d) && Divides(d, x)
    ensures Divides(c, x)
  {
    var j, k :| d == c * j && x == d * k;
    assert x == c * (j * k);
  }

  /** A multiple of `d` smaller than `d` is zero. */
  lemma DividesSmall(d: int, x: int)
    requires d > 0 && Divides(d, x) && -d < x < d
    ensures x == 0
  {
    var k :| x == d * k;
    MultipleBounds(d, k);
  }

  lemma MultipleBounds(d: int, k: int)
    requires d > 0
    ensures (k >= 1 ==> d * k >= d) && (k <= -1 ==> d * k <= -d)
  {
  }

  lemma DividesRest(d: int, x: int)
    requires d > 0
    ensures Divides(d, x - x % d)
  {
    assert x - x % d == d * (x / d);
  }

  lemma DividesMod(d: int, x: int)
    requires d > 0
    ensures Divides(d, x) <==> x % d == 0
  {
    DividesRest(d, x);
    if Divides(d, x) {
      DividesSum(d, x, x - x % d);
      DividesSmall(d, x % d);
    }
  }

  /** Equal remainders, as divisibility. */
  lemma SameMod(d: int, x: int, y: int)
    requires d > 0
    ensures x % d == y % d <==> Divides(d, x - y)
  {
    DividesRest(d, x);
    DividesRest(d, y);
    DividesSum(d, x - x % d, y - y % d);
    if x % d == y % d {
      assert x - y == (x - x % d) - (y - y % d);
    } else if Divides(d, x - y) {
      DividesSum(d, x - y, (x - x % d) - (y - y % d));
      DividesSmall(d, x % d - y % d);
    }
  }

  // ----- Primes

  ghost predicate Prime(p: int) {
    p >= 2 && forall d | 2 <= d < p :: !Divides(d, p)
  }

  /** The inverse of `k` modulo the prime `p`. */
  ghost function Inverse(p: int, k: int): int
    requires Prime(p) && 0 < k < p
    ensures Divides(p, Inverse(p, k) * k - 1)
    decreases k
  {
    if k == 1 then
      DividesBy(p, 0);
      1
    else
      RestPositive(p, k);
      var a, r := p / k, p % k;
      var u := Inverse(p, r);
      InverseStep(p, k, a, r, u);
      -(u * a)
  }

  lemma RestPositive(p: int, k: int)
    requires Prime(p) && 1 < k < p
    ensures 0 < p % k < k
  {
    DividesMod(k, p);
  }

  lemma InverseStep(p: int, k: int, a: int, r: int, u: int)
    requires p == a * k + r && Divides(p, u * r - 1)
    ensures Divides(p, -(u * a) * k - 1)
  {
    DividesBy(p, u);
    DividesSum(p, u * r - 1, p * u);
    assert -(u * a) * k == u * r - p * u;
  }

  /** Euclid's lemma. */
  lemma EuclidsLemma(p: int, a: int, b: int)
    requires Prime(p) && Divides(p, a * b)
    ensures Divides(p, a) || Divides(p, b)
  {
    DividesMod(p, a);
    if a % p != 0 {
      var k := a % p;
      var u := Inverse(p, k);
      DividesRest(p, a);
      DividesTimes(p, a - k, u * b);
      DividesTimes(p, a * b, u);
      DividesTimes(p, u * k - 1, b);
      // b == u a b - u b (a - k) - b (u k - 1)
      DividesSum(p, a * b * u, (a - k) * (u * b));
      DividesSum(p, a * b * u - (a - k) * (u * b), (u * k - 1) * b);
      assert a * b * u - (a - k) * (u * b) - (u * k - 1) * b == b by { EuclidAlgebra(a, b, k, u); }
    }
  }

  lemma EuclidAlgebra(a: int, b: int, k: int, u: int)
    ensures a * b * u - (a - k) * (u * b) - (u * k - 1) * b == b
  {
    assert (a - k) * (u * b) == a * b * u - k * u * b;
    assert (u * k - 1) * b == k * u * b - b;
  }

  // ----- Square roots of -1

  /** Every number that is 3 modulo 4 has a prime factor that is. */
  lemma {:induction false} FactorThree(m: int) returns (r: int)
    requires m > 0 && m % 4 == 3
    ensures Prime(r) && r % 4 == 3 && r <= m && Divides(r, m)
    decreases m
  {
    if Prime(m) {
      r := m;
      DividesBy(m, 1);
    } else {
      var d :| 2 <= d < m && Divides(d, m);
      var e :| m == d * e;
      assert 1 < e < m by { CofactorBounds(m, d, e); }
      OddFactors(d, e);
      if d % 4 == 3 {
        r := FactorThree(d);
        DividesTrans(r, d, m);
      } else {
        r := FactorThree(e);
        assert m == e * d;
        DividesTrans(r, e, m);
      }
    }
  }

  lemma CofactorBounds(m: int, d: int, e: int)
    requires m == d * e && 2 <= d < m
    ensures 1 < e < m
  {
    MultipleBounds(d, e);
    MultipleBounds(d - 1, e);
    assert m == e + (d - 1) * e;
  }

  lemma OddFactors(d: int, e: int)
    requires (d * e) % 4 == 3
    ensures d % 4 == 3 || e % 4 == 3
  {
    var a, b, i, j := d % 4, e % 4, d / 4, e / 4;
    assert d == 4 * i + a && e == 4 * j + b;
    assert d * e == 4 * (4 * i * j + i * b + a * j) + a * b;
    assert (a * b) % 4 == 3;
    assert a == 0 || a == 1 || a == 2 || a == 3;
    assert b == 0 || b == 1 || b == 2 || b == 3;
  }

  /** -1 is not a square modulo a prime that is 3 modulo 4. */
  lemma {:induction false} NoRoot(q: int, z: int)
    requires Prime(q) && q % 4 == 3
    ensures !Divides(q, z * z + 1)
    decreases q
  {
    if Divides(q, z * z + 1) {
      var y := EvenRoot(q, z);
      var m :| y * y + 1 == q * m;
      RootFactor(q, y, m);
      var r := FactorThree(m);
      assert y * y + 1 == m * q;
      DividesTrans(r, m, y * y + 1) by { DividesBy(m, q); }
      NoRoot(r, y);
    }
  }

  /** An even root between 0 and `q`. */
  lemma EvenRoot(q: int, z: int) returns (y: int)
    requires q % 2 == 1 && q > 0 && Divides(q, z * z + 1)
    ensures 0 <= y < q && y % 2 == 0 && Divides(q, y * y + 1)
  {
    hide Divides;
    var x := z % q;
    DividesRest(q, z);
    if x % 2 == 0 {
      y := x;
      SquareRest(q, z, x);
    } else {
      y := q - x;
      FlippedRoot(q, z, x);
    }
  }

  lemma FlippedRoot(q: int, z: int, x: int)
    requires Divides(q, z * z + 1) && Divides(q, z - x)
    ensures Divides(q, (q - x) * (q - x) + 1)
  {
    hide Divides;
    DividesBy(q, 1);
    DividesSum(q, z - x, q * 1);
    SquareRest(q, z, x - q);
    SameSquare(x - q, q - x);
  }

  lemma SameSquare(a: int, b: int)
    requires a == -b
    ensures a * a == b * b
  {
  }

  lemma SquareRest(q: int, z: int, x: int)
    requires Divides(q, z * z + 1) && Divides(q, z - x)
    ensures Divides(q, x * x + 1)
  {
    DividesTimes(q, z - x, z + x);
    DifferenceOfSquares(z, x);
    DividesSum(q, z * z + 1, (z - x) * (z + x));
  }

  lemma DifferenceOfSquares(z: int, x: int)
    ensures (z - x) * (z + x) == z * z - x * x
  {
  }

  lemma RootFactor(q: int, y: int, m: int)
    requires q % 4 == 3 && 0 <= y < q && y % 2 == 0 && y * y + 1 == q * m && q > 0
    ensures 0 < m < q && m % 4 == 3
  {
    assert 0 <= y * y <= q * (q - 1) - 1 by { SquareBound(q, y); }
    MultipleBounds(q, m);
    MultipleBounds(q, m - q);
    assert q * (m - q) == q * m - q * q;
    RootMod(q / 4, y / 2, m);
  }

  lemma SquareBound(q: int, y: int)
    requires 0 <= y < q && q >= 3
    ensures 0 <= y * y <= q * (q - 1) - 1
  {
    MulLe(0, y, y);
    MulLe(y, q - 1, y);
    MulLe(y, q - 1, q - 1);
    OneLess(q);
  }

  lemma OneLess(q: int)
    ensures q * (q - 1) == (q - 1) * (q - 1) + (q - 1)
  {
  }

  lemma MulLe(a: int, b: int, c: int)
    requires a <= b && 0 <= c
    ensures a * c <= b * c && c * a == a * c && c * b == b * c
  {
  }

  lemma RootMod(h: int, k: int, m: int)
    requires (2 * k) * (2 * k) + 1 == (4 * h + 3) * m
    ensures m % 4 == 3
  {
    Regroup(h, k, m);
    ThreeModFour(h * m, k * k, m);
  }

  lemma Regroup(h: int, k: int, m: int)
    ensures (4 * h + 3) * m == 4 * (h * m) + 3 * m && (2 * k) * (2 * k) == 4 * (k * k)
  {
  }

  lemma ThreeModFour(a: int, b: int, m: int)
    requires 4 * b + 1 == 4 * a + 3 * m
    ensures m % 4 == 3
  {
  }
}
