/** Certificates of primality. */
module Primality {
  import opened NumberTheory

  // ----- Powers

  ghost function Pow(b: int, e: nat): int {
    if e == 0 then 1 else b * Pow(b, e - 1)
  }

  lemma {:induction false} PowAdd(b: int, i: nat, j: nat)
    ensures Pow(b, i + j) == Pow(b, i) * Pow(b, j)
  {
    if i > 0 {
      PowAdd(b, i - 1, j);
      assert b * (Pow(b, i - 1) * Pow(b, j)) == (b * Pow(b, i - 1)) * Pow(b, j);
    }
  }

  lemma {:induction false} PowTimes(b: int, k: nat, u: nat)
    ensures u * k >= 0 && Pow(b, u * k) == Pow(Pow(b, k), u)
  {
    if u > 0 {
      PowTimes(b, k, u - 1);
      assert u * k == k + (u - 1) * k;
      PowAdd(b, k, (u - 1) * k);
    }
  }

  /** Powers of what is 1 modulo `d` are 1. */
  lemma {:induction false} OnePow(d: int, x: int, u: nat)
    requires Divides(d, x - 1)
    ensures Divides(d, Pow(x, u) - 1)
  {
    hide Divides;
    if u == 0 {
      DividesBy(d, 0);
      assert d * 0 == Pow(x, 0) - 1;
    } else {
      OnePow(d, x, u - 1);
      OneTimes(d, x, Pow(x, u - 1));
    }
  }

  lemma OneTimes(d: int, x: int, y: int)
    requires Divides(d, x - 1) && Divides(d, y - 1)
    ensures Divides(d, x * y - 1)
  {
    hide Divides;
    DividesTimes(d, x - 1, y);
    DividesSum(d, (x - 1) * y, y - 1);
    assert (x - 1) * y + (y - 1) == x * y - 1;
  }

  /** If two of `x`, `y` and `x * y` are 1 modulo `d`, so is the third. */
  lemma OneQuotient(d: int, x: int, y: int)
    requires Divides(d, x - 1) && Divides(d, x * y - 1)
    ensures Divides(d, y - 1)
  {
    hide Divides;
    DividesTimes(d, x - 1, y);
    DividesSum(d, x * y - 1, (x - 1) * y);
    assert (x * y - 1) - (x - 1) * y == y - 1;
  }

  // ----- Few powers, few remainders

  /** The remainders of the first `i` powers of `b`. */
  ghost function Remainders(b: int, d: int, i: nat): set<int>
    requires d > 0
  {
    if i == 0 then {} else Remainders(b, d, i - 1) + {Pow(b, i - 1) % d}
  }

  lemma {:induction false} InRemainders(b: int, d: int, i: nat, x: int)
    requires d > 0 && x in Remainders(b, d, i)
    ensures 0 <= x < d && exists j: nat :: j < i && x == Pow(b, j) % d
  {
    if x in Remainders(b, d, i - 1) {
      InRemainders(b, d, i - 1, x);
    }
  }

  ghost predicate Distinct(b: int, d: int, m: nat)
    requires d > 0
  {
    forall i: nat, j: nat | i < j < m :: Pow(b, i) % d != Pow(b, j) % d
  }

  lemma {:induction false} CountRemainders(b: int, d: int, m: nat, i: nat)
    requires d > 0 && Distinct(b, d, m) && i <= m
    ensures |Remainders(b, d, i)| == i
  {
    hide Pow;
    if i > 0 {
      CountRemainders(b, d, m, i - 1);
      if Pow(b, i - 1) % d in Remainders(b, d, i - 1) {
        InRemainders(b, d, i - 1, Pow(b, i - 1) % d);
      }
    }
  }

  function Below(n: nat): set<int> {
    if n == 0 then {} else Below(n - 1) + {n - 1}
  }

  lemma {:induction false} BelowSize(n: nat)
    ensures |Below(n)| == n && forall x :: x in Below(n) <==> 0 <= x < n
  {
    if n > 0 {
      BelowSize(n - 1);
    }
  }

  lemma SmallerSet(a: set<int>, b: set<int>)
    requires a <= b
    ensures |a| <= |b|
  {
    assert b == a + (b - a);
  }

  lemma Pigeonhole(b: int, d: nat, m: nat)
    requires d > 0 && Distinct(b, d, m)
    ensures m <= d
  {
    hide Distinct;
    CountRemainders(b, d, m, m);
    BelowSize(d);
    forall x | x in Remainders(b, d, m) ensures x in Below(d) { InRemainders(b, d, m, x); }
    SmallerSet(Remainders(b, d, m), Below(d));
  }

  // ----- Certificates

  /** Whatever exponents below `m` give 1, together with `m` they give it for `e`. */
  ghost predicate Combines(m: nat, e: nat) {
    forall k: nat | 0 < k < m :: Combine(k, m, e)
  }

  ghost predicate Combine(k: nat, m: nat, e: nat) {
    exists u: nat, v: nat :: u * k == v * m + e
  }

  /** `b` has no smaller order than `m` modulo any divisor of `n`: the `m`th power is 1, and the `e`th less 1 has the
      inverse `c`. */
  ghost predicate Order(n: int, b: int, m: nat, e: nat, c: int) {
    Divides(n, Pow(b, m) - 1) && Divides(n, c * (Pow(b, e) - 1) - 1) && Combines(m, e)
  }

  lemma NotOneBelow(n: int, d: int, b: int, m: nat, e: nat, c: int, k: nat)
    requires Order(n, b, m, e, c) && Divides(d, n) && d >= 2 && 0 < k < m
    ensures !Divides(d, Pow(b, k) - 1)
  {
    hide Divides, Pow;
    if Divides(d, Pow(b, k) - 1) {
      assert Combine(k, m, e);
      var u: nat, v: nat :| u * k == v * m + e;
      DividesTrans(d, n, Pow(b, m) - 1);
      DividesTrans(d, n, c * (Pow(b, e) - 1) - 1);
      PowTimes(b, k, u);
      PowTimes(b, m, v);
      OnePow(d, Pow(b, k), u);
      OnePow(d, Pow(b, m), v);
      PowAdd(b, v * m, e);
      OneQuotient(d, Pow(b, v * m), Pow(b, e));
      DividesTimes(d, Pow(b, e) - 1, c);
      OneDivides(d, c, Pow(b, e) - 1);
    }
  }

  lemma OneDivides(d: int, c: int, x: int)
    requires Divides(d, x * c) && Divides(d, c * x - 1)
    ensures d < 2
  {
    hide Divides;
    DividesSum(d, x * c, c * x - 1);
    assert x * c - (c * x - 1) == 1;
    if d >= 2 {
      DividesSmall(d, 1);
    }
  }

  lemma DistinctPowers(n: int, d: int, b: int, m: nat, e: nat, c: int)
    requires Order(n, b, m, e, c) && Divides(d, n) && d >= 2
    ensures Distinct(b, d, m)
  {
    hide Divides, Pow, Combines;
    forall i: nat, j: nat | i < j < m ensures Pow(b, i) % d != Pow(b, j) % d {
      if Pow(b, i) % d == Pow(b, j) % d {
        SameMod(d, Pow(b, j), Pow(b, i));
        DividesTimes(d, Pow(b, j) - Pow(b, i), Pow(b, m - j));
        PowAdd(b, j, m - j);
        PowAdd(b, i, m - j);
        DividesTrans(d, n, Pow(b, m) - 1);
        var k := m - (j - i);
        assert (Pow(b, j) - Pow(b, i)) * Pow(b, m - j) == Pow(b, m) - Pow(b, k) by {
          Spread(Pow(b, j), Pow(b, i), Pow(b, m - j));
        }
        DividesSum(d, Pow(b, m) - 1, Pow(b, m) - Pow(b, k));
        NotOneBelow(n, d, b, m, e, c, k);
      }
    }
  }

  lemma Spread(x: int, y: int, z: int)
    ensures (x - y) * z == x * z - y * z
  {
  }

  /** Pocklington's criterion: an element of order beyond the square root of `n`, modulo all divisors, makes `n`
      prime. */
  lemma Certificate(n: int, b: int, m: nat, e: nat, c: int)
    requires n >= 2 && n < m * m && Order(n, b, m, e, c)
    ensures Prime(n)
  {
    hide Divides, Order;
    forall d | 2 <= d < n ensures !Divides(d, n) {
      if Divides(d, n) {
        var f := Cofactor(n, d);
        DistinctPowers(n, d, b, m, e, c);
        Pigeonhole(b, d, m);
        DistinctPowers(n, f, b, m, e, c);
        Pigeonhole(b, f, m);
        TooLarge(d, f, m);
      }
    }
  }

  lemma TooLarge(d: int, f: int, m: nat)
    requires m <= d && m <= f
    ensures m * m <= d * f
  {
    assert m * m <= d * m <= d * f;
  }

  lemma Cofactor(n: int, d: int) returns (f: int)
    requires 2 <= d < n && Divides(d, n)
    ensures n == d * f && Divides(f, n) && f >= 2
  {
    f :| n == d * f;
    assert n == f * d;
    CofactorBounds(n, d, f);
  }

  // ----- Computing powers

  function TimesMod(a: nat, b: nat, n: nat): (r: nat)
    requires n > 0
  {
    (a * b) % n
  }

  /** Powers modulo `n`, by squaring. */
  function PowMod(b: nat, e: nat, n: nat): (r: nat)
    requires n > 0
    decreases e
  {
    if e == 0 then 1 % n
    else if e % 2 == 0 then PowMod(TimesMod(b, b, n), e / 2, n)
    else TimesMod(b, PowMod(b, e - 1, n), n)
  }

  lemma TimesModIs(a: nat, b: nat, n: nat)
    requires n > 0
    ensures Divides(n, a * b - TimesMod(a, b, n))
  {
    hide Divides;
    DividesRest(n, a * b);
  }

  lemma {:induction false} PowModIs(b: nat, e: nat, n: nat)
    requires n > 0
    ensures Divides(n, Pow(b, e) - PowMod(b, e, n))
    decreases e
  {
    hide Divides, TimesMod, Pow;
    if e == 0 {
      DividesRest(n, 1);
      assert Pow(b, 0) == 1 by { PowZeroOne(b); }
    } else if e % 2 == 0 {
      var s := TimesMod(b, b, n);
      PowModIs(s, e / 2, n);
      EvenPower(b, e / 2, n, s, PowMod(s, e / 2, n));
    } else {
      PowModIs(b, e - 1, n);
      OddPower(b, e - 1, n, PowMod(b, e - 1, n));
    }
  }

  lemma PowZeroOne(b: int)
    ensures Pow(b, 0) == 1
  {
  }

  lemma EvenPower(b: nat, h: nat, n: nat, s: nat, r: nat)
    requires n > 0 && s == TimesMod(b, b, n) && Divides(n, Pow(s, h) - r)
    ensures Divides(n, Pow(b, 2 * h) - r)
  {
    hide Divides, TimesMod, Pow;
    TimesModIs(b, b, n);
    PowCong(n, b * b, s, h);
    PowSquare(b, h);
    DividesSum(n, Pow(b * b, h) - Pow(s, h), Pow(s, h) - r);
  }

  lemma OddPower(b: nat, h: nat, n: nat, r: nat)
    requires n > 0 && Divides(n, Pow(b, h) - r)
    ensures Divides(n, Pow(b, h + 1) - TimesMod(b, r, n))
  {
    hide Divides, TimesMod;
    DividesTimes(n, Pow(b, h) - r, b);
    TimesModIs(b, r, n);
    Spread(Pow(b, h), r, b);
    DividesSum(n, (Pow(b, h) - r) * b, b * r - TimesMod(b, r, n));
  }

  lemma PowSquare(b: int, h: nat)
    ensures Pow(b, 2 * h) == Pow(b * b, h)
  {
    PowTimes(b, 2, h);
    assert Pow(b, 2) == b * Pow(b, 1) && Pow(b, 1) == b * Pow(b, 0);
    assert h * 2 == 2 * h;
  }

  lemma {:induction false} PowCong(n: int, x: int, y: int, e: nat)
    requires Divides(n, x - y)
    ensures Divides(n, Pow(x, e) - Pow(y, e))
  {
    hide Divides;
    if e == 0 {
      DividesBy(n, 0);
      assert n * 0 == Pow(x, 0) - Pow(y, 0);
    } else {
      PowCong(n, x, y, e - 1);
      var p, q := Pow(x, e - 1), Pow(y, e - 1);
      DividesTimes(n, p - q, x);
      DividesTimes(n, x - y, q);
      DividesSum(n, (p - q) * x, (x - y) * q);
      assert (p - q) * x + (x - y) * q == x * p - y * q by { Spread(p, q, x); Spread(x, y, q); }
    }
  }

  // ----- Trial division

  function NoneDivides(n: nat, d: nat): bool
    requires d >= 2
  {
    d == 2 || (n % (d - 1) != 0 && NoneDivides(n, d - 1))
  }

  lemma {:induction false} NoneDividesIs(n: nat, d: nat, f: nat)
    requires 2 <= f < d && NoneDivides(n, d)
    ensures !Divides(f, n)
  {
    hide Divides;
    if f == d - 1 {
      DividesMod(f, n);
    } else {
      NoneDividesIs(n, d - 1, f);
    }
  }

  lemma TrialDivision(n: nat, d: nat)
    requires 2 <= d && n >= 2 && n < d * d && NoneDivides(n, d)
    ensures Prime(n)
  {
    hide Divides, NoneDivides;
    forall f | 2 <= f < n ensures !Divides(f, n) {
      if Divides(f, n) {
        var g := Cofactor(n, f);
        if f < d {
          NoneDividesIs(n, d, f);
        } else if g < d {
          NoneDividesIs(n, d, g);
        } else {
          TooLarge(f, g, d);
        }
      }
    }
  }

  // ----- Exponents that combine

  /** An inverse among the natural numbers. */
  lemma NatInverse(p: int, k: nat) returns (u: nat, v: nat)
    requires Prime(p) && k % p != 0
    ensures u * k == v * p + 1
  {
    hide Divides;
    var r := k % p;
    var w := Inverse(p, r);
    u := w % p;
    DividesRest(p, w);
    DividesRest(p, k);
    DividesTimes(p, w - u, r);
    DividesTimes(p, k - r, u);
    Spread(w, u, r);
    Spread(k, r, u);
    DividesSum(p, w * r - 1, (w - u) * r);
    DividesSum(p, (w * r - 1) - (w - u) * r, (k - r) * u);
    assert (w * r - 1) - (w - u) * r + (k - r) * u == u * k - 1;
    v := Quotient(p, u * k - 1, u, k);
  }

  lemma Quotient(p: int, x: int, u: nat, k: nat) returns (v: nat)
    requires p >= 2 && Divides(p, x) && x == u * k - 1
    ensures x == v * p
  {
    var j :| x == p * j;
    MultipleBounds(p, j);
    assert u * k >= 0;
    v := j;
  }

  lemma PrimeCombines(p: int)
    requires Prime(p)
    ensures Combines(p, 1)
  {
    hide Prime;
    forall k: nat | 0 < k < p ensures Combine(k, p, 1) {
      var u, v := NatInverse(p, k);
      assert u * k == v * p + 1;
    }
  }

  lemma SquareCombines(p: int)
    requires Prime(p)
    ensures p * p >= 0 && Combines(p * p, p)
  {
    hide Prime, Combine;
    assert p >= 2 by { PrimeLeast(p); }
    forall k: nat | 0 < k < p * p ensures Combine(k, p * p, p) {
      if k % p == 0 {
        var h := k / p;
        MultipleCombines(p, h, k);
      } else {
        var u, v := NatInverse(p, k);
        Scaled(p, k, u, v);
      }
    }
  }

  lemma PrimeLeast(p: int)
    requires Prime(p)
    ensures p >= 2
  {
  }

  lemma Scaled(p: nat, k: nat, u: nat, v: nat)
    requires u * k == v * p + 1
    ensures Combine(k, p * p, p)
  {
    assert (u * p) * k == (u * k) * p;
    assert (v * p + 1) * p == v * (p * p) + p;
    CombineBy(k, p * p, p, u * p, v);
  }

  lemma CombineBy(k: nat, m: nat, e: nat, u: nat, v: nat)
    requires u * k == v * m + e
    ensures Combine(k, m, e)
  {
  }

  lemma MultipleCombines(p: int, h: nat, k: nat)
    requires Prime(p) && k == h * p && 0 < k < p * p
    ensures Combine(k, p * p, p)
  {
    hide Prime, Combine;
    assert p >= 2 by { PrimeLeast(p); }
    HalfBounds(p, h);
    var u, v := NatInverse(p, h);
    ScaledMultiple(p, h, k, u, v);
  }

  lemma HalfBounds(p: nat, h: nat)
    requires 0 < h * p < p * p
    ensures 0 < h < p && h % p == h
  {
    assert h >= p ==> h * p >= p * p;
  }

  lemma ScaledMultiple(p: nat, h: nat, k: nat, u: nat, v: nat)
    requires u * h == v * p + 1 && k == h * p
    ensures Combine(k, p * p, p)
  {
    assert u * k == (u * h) * p;
    assert (v * p + 1) * p == v * (p * p) + p;
    CombineBy(k, p * p, p, u, v);
  }

  /** An order, from computed powers. */
  lemma OrderBy(n: nat, b: nat, m: nat, e: nat, c: nat, r: nat)
    requires n >= 2 && PowMod(b, m, n) == 1 && PowMod(b, e, n) == r && (c * (r - 1)) % n == 1 && Combines(m, e)
    ensures Order(n, b, m, e, c)
  {
    hide Divides, PowMod, Pow, Combines;
    PowModIs(b, m, n);
    PowModIs(b, e, n);
    DividesTimes(n, Pow(b, e) - r, c);
    DividesRest(n, c * (r - 1));
    DividesSum(n, (Pow(b, e) - r) * c, c * (r - 1) - 1);
    assert (Pow(b, e) - r) * c + (c * (r - 1) - 1) == c * (Pow(b, e) - 1) - 1 by {
      Spread(Pow(b, e), r, c);
      Spread(Pow(b, e), 1, c);
      Spread(r, 1, c);
    }
  }

  // ----- Computing a power step by step

  lemma PowZero(b: nat, n: nat)
    requires n > 1
    ensures PowMod(b, 0, n) == 1
  {
  }

  lemma PowNext(b: nat, e: nat, n: nat, r: nat, t: nat)
    requires n > 0 && e % 2 == 0 && PowMod(b, e, n) == r && t == TimesMod(b, r, n)
    ensures PowMod(b, e + 1, n) == t
  {
    hide TimesMod;
  }

  lemma PowDouble(b: nat, e: nat, n: nat, s: nat, r: nat)
    requires n > 0 && e > 0 && s == TimesMod(b, b, n) && PowMod(s, e, n) == r
    ensures PowMod(b, 2 * e, n) == r
  {
    hide TimesMod;
  }

  /** Eight more trial divisors. */
  lemma Eight(n: nat, d: nat)
    requires d >= 2 && NoneDivides(n, d)
    requires n % d != 0 && n % (d + 1) != 0 && n % (d + 2) != 0 && n % (d + 3) != 0
    requires n % (d + 4) != 0 && n % (d + 5) != 0 && n % (d + 6) != 0 && n % (d + 7) != 0
    ensures NoneDivides(n, d + 8)
  {
    hide NoneDivides;
    OneMore(n, d);
    OneMore(n, d + 1);
    OneMore(n, d + 2);
    OneMore(n, d + 3);
    OneMore(n, d + 4);
    OneMore(n, d + 5);
    OneMore(n, d + 6);
    OneMore(n, d + 7);
  }

  lemma OneMore(n: nat, d: nat)
    requires d >= 2 && NoneDivides(n, d) && n % d != 0
    ensures NoneDivides(n, d + 1)
  {
  }

  // ----- The primes of this repository

  lemma Prime181()
    ensures Prime(181)
  {
    assert NoneDivides(181, 14);
    TrialDivision(181, 14);
  }

  lemma TrialUpto34()
    ensures NoneDivides(65521, 34)
  {
    assert NoneDivides(65521, 2);
    hide NoneDivides;
    Eight(65521, 2);
    Eight(65521, 10);
    Eight(65521, 18);
    Eight(65521, 26);
  }

  lemma TrialUpto66()
    ensures NoneDivides(65521, 66)
  {
    hide NoneDivides;
    TrialUpto34();
    Eight(65521, 34);
    Eight(65521, 42);
    Eight(65521, 50);
    Eight(65521, 58);
  }

  lemma TrialUpto98()
    ensures NoneDivides(65521, 98)
  {
    hide NoneDivides;
    TrialUpto66();
    Eight(65521, 66);
    Eight(65521, 74);
    Eight(65521, 82);
    Eight(65521, 90);
  }

  lemma TrialUpto130()
    ensures NoneDivides(65521, 130)
  {
    hide NoneDivides;
    TrialUpto98();
    Eight(65521, 98);
    Eight(65521, 106);
    Eight(65521, 114);
    Eight(65521, 122);
  }

  lemma TrialUpto162()
    ensures NoneDivides(65521, 162)
  {
    hide NoneDivides;
    TrialUpto130();
    Eight(65521, 130);
    Eight(65521, 138);
    Eight(65521, 146);
    Eight(65521, 154);
  }

  lemma TrialUpto194()
    ensures NoneDivides(65521, 194)
  {
    hide NoneDivides;
    TrialUpto162();
    Eight(65521, 162);
    Eight(65521, 170);
    Eight(65521, 178);
    Eight(65521, 186);
  }

  lemma TrialUpto226()
    ensures NoneDivides(65521, 226)
  {
    hide NoneDivides;
    TrialUpto194();
    Eight(65521, 194);
    Eight(65521, 202);
    Eight(65521, 210);
    Eight(65521, 218);
  }

  lemma TrialUpto258()
    ensures NoneDivides(65521, 258)
  {
    hide NoneDivides;
    TrialUpto226();
    Eight(65521, 226);
    Eight(65521, 234);
    Eight(65521, 242);
    Eight(65521, 250);
  }

  lemma Prime65521()
    ensures Prime(65521)
  {
    TrialUpto258();
    TrialDivision(65521, 258);
  }

  lemma Power181()
    ensures PowMod(18389778, 181, 22605091) == 13954217
  {
    hide PowMod;
    PowZero(11753077, 22605091);
    PowNext(11753077, 0, 22605091, 1, 11753077);
    PowDouble(19047387, 1, 22605091, 11753077, 11753077);
    PowDouble(12035547, 2, 22605091, 19047387, 11753077);
    PowNext(12035547, 4, 22605091, 11753077, 8142151);
    PowDouble(19346625, 5, 22605091, 12035547, 8142151);
    PowNext(19346625, 10, 22605091, 8142151, 17558695);
    PowDouble(16858072, 11, 22605091, 19346625, 17558695);
    PowDouble(6806019, 22, 22605091, 16858072, 17558695);
    PowNext(6806019, 44, 22605091, 17558695, 14341693);
    PowDouble(18881964, 45, 22605091, 6806019, 14341693);
    PowDouble(18389778, 90, 22605091, 18881964, 14341693);
    PowNext(18389778, 180, 22605091, 14341693, 13954217);
  }

  lemma Power32761()
    ensures PowMod(18389778, 32761, 22605091) == 1
  {
    hide PowMod;
    PowZero(20260967, 22605091);
    PowNext(20260967, 0, 22605091, 1, 20260967);
    PowDouble(3622802, 1, 22605091, 20260967, 20260967);
    PowNext(3622802, 2, 22605091, 20260967, 6076523);
    PowDouble(6108948, 3, 22605091, 3622802, 6076523);
    PowNext(6108948, 6, 22605091, 6076523, 9396335);
    PowDouble(16938443, 7, 22605091, 6108948, 9396335);
    PowNext(16938443, 14, 22605091, 9396335, 3788145);
    PowDouble(10971076, 15, 22605091, 16938443, 3788145);
    PowNext(10971076, 30, 22605091, 3788145, 1763245);
    PowDouble(15058162, 31, 22605091, 10971076, 1763245);
    PowNext(15058162, 62, 22605091, 1763245, 12330002);
    PowDouble(13171676, 63, 22605091, 15058162, 12330002);
    PowNext(13171676, 126, 22605091, 12330002, 17821850);
    PowDouble(11753077, 127, 22605091, 13171676, 17821850);
    PowNext(11753077, 254, 22605091, 17821850, 21700257);
    PowDouble(19047387, 255, 22605091, 11753077, 21700257);
    PowNext(19047387, 510, 22605091, 21700257, 8347099);
    PowDouble(12035547, 511, 22605091, 19047387, 8347099);
    PowNext(12035547, 1022, 22605091, 8347099, 17829588);
    PowDouble(19346625, 1023, 22605091, 12035547, 17829588);
    PowNext(19346625, 2046, 22605091, 17829588, 12036182);
    PowDouble(16858072, 2047, 22605091, 19346625, 12036182);
    PowNext(16858072, 4094, 22605091, 12036182, 22155999);
    PowDouble(6806019, 4095, 22605091, 16858072, 22155999);
    PowDouble(18881964, 8190, 22605091, 6806019, 22155999);
    PowDouble(18389778, 16380, 22605091, 18881964, 22155999);
    PowNext(18389778, 32760, 22605091, 22155999, 1);
  }

  lemma Power22605091()
    ensures PowMod(1073745729, 22605091, 4294967291) == 1
  {
    hide PowMod;
    PowZero(2481701177, 4294967291);
    PowNext(2481701177, 0, 4294967291, 1, 2481701177);
    PowDouble(4057773597, 1, 4294967291, 2481701177, 2481701177);
    PowDouble(1915540856, 2, 4294967291, 4057773597, 2481701177);
    PowNext(1915540856, 4, 4294967291, 2481701177, 1609528138);
    PowDouble(3512913903, 5, 4294967291, 1915540856, 1609528138);
    PowDouble(210805708, 10, 4294967291, 3512913903, 1609528138);
    PowNext(210805708, 20, 4294967291, 1609528138, 1382228058);
    PowDouble(122578182, 21, 4294967291, 210805708, 1382228058);
    PowNext(122578182, 42, 4294967291, 1382228058, 1732507417);
    PowDouble(3239567087, 43, 4294967291, 122578182, 1732507417);
    PowDouble(1380600767, 86, 4294967291, 3239567087, 1732507417);
    PowDouble(2524758648, 172, 4294967291, 1380600767, 1732507417);
    PowDouble(1482544857, 344, 4294967291, 2524758648, 1732507417);
    PowNext(1482544857, 688, 4294967291, 1732507417, 1736076973);
    PowDouble(19340266, 689, 4294967291, 1482544857, 1736076973);
    PowNext(19340266, 1378, 4294967291, 1736076973, 189061112);
    PowDouble(1436241517, 1379, 4294967291, 19340266, 189061112);
    PowNext(1436241517, 2758, 4294967291, 189061112, 4095540683);
    PowDouble(3800838314, 2759, 4294967291, 1436241517, 4095540683);
    PowDouble(3727224937, 5518, 4294967291, 3800838314, 4095540683);
    PowNext(3727224937, 11036, 4294967291, 4095540683, 583224744);
    PowDouble(1610087772, 11037, 4294967291, 3727224937, 583224744);
    PowNext(1610087772, 22074, 4294967291, 583224744, 137343405);
    PowDouble(3518189214, 22075, 4294967291, 1610087772, 137343405);
    PowDouble(1932174779, 44150, 4294967291, 3518189214, 137343405);
    PowNext(1932174779, 88300, 4294967291, 137343405, 2821143567);
    PowDouble(1777626794, 88301, 4294967291, 1932174779, 2821143567);
    PowDouble(2385523724, 176602, 4294967291, 1777626794, 2821143567);
    PowDouble(1982053317, 353204, 4294967291, 2385523724, 2821143567);
    PowNext(1982053317, 706408, 4294967291, 2821143567, 3005019258);
    PowDouble(1143830289, 706409, 4294967291, 1982053317, 3005019258);
    PowDouble(2883478573, 1412818, 4294967291, 1143830289, 3005019258);
    PowDouble(148041656, 2825636, 4294967291, 2883478573, 3005019258);
    PowDouble(3504919713, 5651272, 4294967291, 148041656, 3005019258);
    PowNext(3504919713, 11302544, 4294967291, 3005019258, 688844034);
    PowDouble(1073745729, 11302545, 4294967291, 3504919713, 688844034);
    PowNext(1073745729, 22605090, 4294967291, 688844034, 1);
  }

  lemma Prime22605091()
    ensures Prime(22605091)
  {
    hide Prime, Combines, PowMod, Order;
    Prime181();
    SquareCombines(181);
    Power181();
    Power32761();
    OrderBy(22605091, 18389778, 32761, 181, 19569746, 13954217);
    Certificate(22605091, 18389778, 32761, 181, 19569746);
  }

  lemma Prime4294967291()
    ensures Prime(4294967291)
  {
    hide Prime, Combines, PowMod, Order;
    Prime22605091();
    PrimeCombines(22605091);
    Power22605091();
    assert PowMod(1073745729, 1, 4294967291) == 1073745729 by {
      PowZero(1073745729, 4294967291);
      PowNext(1073745729, 0, 4294967291, 1, 1073745729);
    }
    OrderBy(4294967291, 1073745729, 22605091, 1, 1771216906, 1073745729);
    Certificate(4294967291, 1073745729, 22605091, 1, 1771216906);
  }
}
