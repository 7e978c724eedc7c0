/** The 32-bit bin maps of Heap_DL.cpp: one bit per bin, searched by bit arithmetic. */
module BinMap {

  const NBINS: nat := 32

  // ----- The macros, on words and 5-bit indices

  /** idx2bit */
  function Idx2Bit(k: bv5): bv32 {
    1 << k
  }

  /** smallmap_is_marked and treemap_is_marked; TestIsMask gives the macros' own form. */
  predicate TestBit(m: bv32, k: bv5) {
    (m >> k) & 1 == 1
  }

  function SetBit(m: bv32, k: bv5): bv32 {
    m | Idx2Bit(k)
  }

  function ResetBit(m: bv32, k: bv5): bv32 {
    m & !Idx2Bit(k)
  }

  /** least_bit: isolate the least set bit. */
  function LeastBit(x: bv32): bv32 {
    x & -x
  }

  /** left_bits: all bits to the left of the least set bit. */
  function LeftBits(x: bv32): bv32 {
    (x << 1) | -(x << 1)
  }

  /** The bits of `m` to the left of bit `k`. */
  function LeftOf(m: bv32, k: bv5): bv32 {
    LeftBits(Idx2Bit(k)) & m
  }

  /** The map shifted right by `k`, as dlmalloc does to reach bin `k`. */
  function SmallBits(m: bv32, k: bv5): bv32 {
    m >> k
  }

  /** dlmalloc's candidates in bins above `k`: the shifted map put back, masked by left_bits. */
  function ShiftedLeft(m: bv32, k: bv5): bv32 {
    ((m >> k) << k) & LeftBits(Idx2Bit(k))
  }

  /** compute_bit2idx, in the form that searches by halves. */
  function HalvingSearch(x: bv32): bv32 {
    var y := x - 1;
    var k1 := (y >> 12) & 16;
    var y1 := y >> (k1 as bv6);
    var k2 := (y1 >> 5) & 8;
    var y2 := y1 >> (k2 as bv6);
    var k3 := (y2 >> 2) & 4;
    var y3 := y2 >> (k3 as bv6);
    var k4 := (y3 >> 1) & 2;
    var y4 := y3 >> (k4 as bv6);
    var k5 := y4 & 1;
    var y5 := y4 >> (k5 as bv6);
    k1 + k2 + k3 + k4 + k5 + y5
  }

  // ----- The same, with bins numbered by naturals

  function Idx(i: nat): bv5
    requires i < NBINS
  {
    i as bv5
  }

  predicate Marked(m: bv32, i: nat)
    requires i < NBINS
  {
    TestBit(m, Idx(i))
  }

  function Mark(m: bv32, i: nat): bv32
    requires i < NBINS
  {
    SetBit(m, Idx(i))
  }

  function Clear(m: bv32, i: nat): bv32
    requires i < NBINS
  {
    ResetBit(m, Idx(i))
  }

  function Bit2Idx(x: bv32): nat {
    HalvingSearch(x) as nat
  }

  // ----- What the searches look for

  /** Bin `i` is the first marked bin of `m` at or above `lo`. */
  ghost predicate FirstMarked(m: bv32, lo: nat, i: nat) {
    && lo <= i < NBINS && Marked(m, i)
    && forall j | lo <= j < i :: !Marked(m, j)
  }

  ghost predicate NoneFrom(m: bv32, lo: nat) {
    forall j | lo <= j < NBINS :: !Marked(m, j)
  }

  // ----- Facts about words

  lemma SetTest(m: bv32, i: bv5, j: bv5)
    ensures TestBit(SetBit(m, i), j) <==> i == j || TestBit(m, j)
  {
  }

  lemma ResetTest(m: bv32, i: bv5, j: bv5)
    ensures TestBit(ResetBit(m, i), j) <==> i != j && TestBit(m, j)
  {
  }

  lemma LeftTest(m: bv32, i: bv5, j: bv5)
    ensures TestBit(LeftOf(m, i), j) <==> i < j && TestBit(m, j)
  {
  }

  lemma LeastTest(m: bv32, i: bv5, j: bv5)
    requires LeastBit(m) == Idx2Bit(i)
    ensures TestBit(m, i)
    ensures j < i ==> !TestBit(m, j)
  {
  }

  lemma ZeroTest(j: bv5)
    ensures !TestBit(0, j)
  {
  }

  /** The search by halves finds the only set bit. */
  lemma SearchFinds(m: bv32) returns (k: bv5)
    requires m != 0
    ensures LeastBit(m) == Idx2Bit(k) && HalvingSearch(LeastBit(m)) == k as bv32
  {
    k := HalvingSearch(LeastBit(m)) as bv5;
  }

  lemma ShiftTest(m: bv32, i: bv5)
    requires i < 31
    ensures SmallBits(m, i) & 3 != 0 <==> TestBit(m, i) || TestBit(m, i + 1)
    ensures !SmallBits(m, i) & 1 == if TestBit(m, i) then 0 else 1
  {
  }

  lemma ShiftZero(m: bv32, i: bv5, j: bv5)
    requires SmallBits(m, i) == 0 && i <= j
    ensures !TestBit(m, j)
  {
  }

  lemma BackTest(m: bv32, i: bv5, j: bv5)
    ensures TestBit((m >> i) << i, j) <==> i <= j && TestBit(m, j)
  {
  }

  lemma LeftBitsTest(i: bv5, j: bv5)
    ensures TestBit(LeftBits(Idx2Bit(i)), j) <==> i < j
  {
  }

  lemma AndTest(a: bv32, b: bv32, j: bv5)
    ensures TestBit(a & b, j) <==> TestBit(a, j) && TestBit(b, j)
  {
  }

  lemma MaskTest(m: bv32, i: bv5, j: bv5)
    ensures TestBit(ShiftedLeft(m, i), j) <==> i < j && TestBit(m, j)
  {
    hide TestBit, LeftBits;
    BackTest(m, i, j);
    LeftBitsTest(i, j);
    AndTest((m >> i) << i, LeftBits(Idx2Bit(i)), j);
  }

  lemma MaskShift(m: bv32, i: bv5)
    ensures ShiftedLeft(m, i) >> i == SmallBits(m, i) & !1
  {
  }

  lemma MaskNonzero(m: bv32, i: bv5)
    requires SmallBits(m, i) & 3 == 0 && SmallBits(m, i) != 0
    ensures ShiftedLeft(m, i) != 0
  {
    hide ShiftedLeft, SmallBits;
    MaskShift(m, i);
  }

  // ----- Indices

  lemma IndexBack(i: nat)
    requires i < NBINS
    ensures Idx(i) as nat == i
  {
  }

  lemma IndexOf(k: bv5)
    ensures (k as nat) < NBINS && Idx(k as nat) == k && (k as bv32) as nat == k as nat
  {
  }

  lemma Order(a: bv5, b: bv5)
    ensures (a as nat) < (b as nat) <==> a < b
  {
  }

  lemma IndexOrder(i: nat, j: nat)
    requires i < NBINS && j < NBINS
    ensures i < j <==> Idx(i) < Idx(j)
    ensures i == j <==> Idx(i) == Idx(j)
  {
    hide Idx;
    IndexBack(i);
    IndexBack(j);
    Order(Idx(i), Idx(j));
  }

  lemma IndexNext(i: nat)
    requires i + 1 < NBINS
    ensures Idx(i + 1) == Idx(i) + 1 && Idx(i) < 31
  {
    hide Idx;
    IndexOrder(i, i + 1);
    IndexBack(i);
    IndexBack(i + 1);
    Successor(Idx(i), Idx(i + 1));
  }

  lemma Successor(a: bv5, b: bv5)
    requires (b as nat) == (a as nat) + 1
    ensures b == a + 1 && a < 31
  {
  }

  // ----- What the macros compute

  lemma MarkedMark(m: bv32, i: nat, j: nat)
    requires i < NBINS && j < NBINS
    ensures Marked(Mark(m, i), j) <==> i == j || Marked(m, j)
  {
    hide Idx, TestBit, SetBit;
    IndexOrder(i, j);
    SetTest(m, Idx(i), Idx(j));
  }

  lemma MarkedClear(m: bv32, i: nat, j: nat)
    requires i < NBINS && j < NBINS
    ensures Marked(Clear(m, i), j) <==> i != j && Marked(m, j)
  {
    hide Idx, TestBit, ResetBit;
    IndexOrder(i, j);
    ResetTest(m, Idx(i), Idx(j));
  }

  /** least_bit and compute_bit2idx together find the first marked bin. */
  lemma Least(m: bv32)
    requires m != 0
    ensures FirstMarked(m, 0, Bit2Idx(LeastBit(m)))
  {
    hide Idx, TestBit, HalvingSearch, LeastBit, Idx2Bit;
    var k := SearchFinds(m);
    IndexOf(k);
    LeastTest(m, k, k);
    forall j | 0 <= j < k as nat
      ensures !Marked(m, j)
    {
      IndexOrder(j, k as nat);
      LeastTest(m, k, Idx(j));
    }
  }

  lemma NoneMarked(m: bv32)
    ensures m == 0 <==> NoneFrom(m, 0)
  {
    hide Idx, TestBit, Bit2Idx, LeastBit;
    if m != 0 {
      Least(m);
    } else {
      forall j | 0 <= j < NBINS
        ensures !Marked(m, j)
      {
        ZeroTest(Idx(j));
      }
    }
  }

  /** If `x` holds the bits of `m` above bin `idx`, its least bit is the next marked bin. */
  lemma NextMarked(m: bv32, idx: nat, x: bv32)
    requires idx < NBINS
    requires forall j | 0 <= j < NBINS :: Marked(x, j) <==> idx < j && Marked(m, j)
    ensures x == 0 ==> NoneFrom(m, idx + 1)
    ensures x != 0 ==> FirstMarked(m, idx + 1, Bit2Idx(LeastBit(x)))
  {
    hide Idx, TestBit, Bit2Idx, LeastBit;
    NoneMarked(x);
    if x != 0 {
      Least(x);
    }
  }

  /** tmalloc_large: the next marked bin above `idx`, if there is one. */
  lemma LeastAbove(m: bv32, idx: nat)
    requires idx < NBINS
    ensures LeftOf(m, Idx(idx)) == 0 ==> NoneFrom(m, idx + 1)
    ensures LeftOf(m, Idx(idx)) != 0 ==> FirstMarked(m, idx + 1, Bit2Idx(LeastBit(LeftOf(m, Idx(idx)))))
  {
    hide Idx, TestBit, LeftOf, Bit2Idx, LeastBit;
    var x := LeftOf(m, Idx(idx));
    forall j | 0 <= j < NBINS
      ensures Marked(x, j) <==> idx < j && Marked(m, j)
    {
      IndexOrder(idx, j);
      LeftTest(m, Idx(idx), Idx(j));
    }
    NextMarked(m, idx, x);
  }

  /** dlmalloc: the map shifted by `idx` shows bins `idx` and `idx + 1` in its two low bits. */
  lemma ShiftedLow(m: bv32, idx: nat)
    requires idx + 1 < NBINS
    ensures var sb := SmallBits(m, Idx(idx));
      && (sb & 3 != 0 <==> Marked(m, idx) || Marked(m, idx + 1))
      && (!sb & 1 == if Marked(m, idx) then 0 else 1)
  {
    hide Idx, TestBit, SmallBits;
    IndexNext(idx);
    ShiftTest(m, Idx(idx));
  }

  lemma HighMarked(m: bv32, idx: nat, j: nat)
    requires idx < NBINS && j < NBINS
    ensures Marked(ShiftedLeft(m, Idx(idx)), j) <==> idx < j && Marked(m, j)
    ensures SmallBits(m, Idx(idx)) == 0 && idx <= j ==> !Marked(m, j)
  {
    hide Idx, TestBit, ShiftedLeft, SmallBits;
    IndexOrder(idx, j);
    MaskTest(m, Idx(idx), Idx(j));
    if SmallBits(m, Idx(idx)) == 0 && idx <= j {
      ShiftZero(m, Idx(idx), Idx(j));
    }
  }

  /** dlmalloc, bins `idx` and `idx + 1` being empty: the next marked bin, if there is one. */
  lemma ShiftedHigh(m: bv32, idx: nat)
    requires idx + 1 < NBINS
    requires SmallBits(m, Idx(idx)) & 3 == 0
    ensures SmallBits(m, Idx(idx)) == 0 ==> NoneFrom(m, idx)
    ensures SmallBits(m, Idx(idx)) != 0 ==> FirstMarked(m, idx, Bit2Idx(LeastBit(ShiftedLeft(m, Idx(idx)))))
    ensures !Marked(m, idx) && !Marked(m, idx + 1)
  {
    hide Idx, TestBit, ShiftedLeft, SmallBits, Bit2Idx, LeastBit;
    ShiftedLow(m, idx);
    forall j | 0 <= j < NBINS
      ensures Marked(ShiftedLeft(m, Idx(idx)), j) <==> idx < j && Marked(m, j)
      ensures SmallBits(m, Idx(idx)) == 0 && idx <= j ==> !Marked(m, j)
    {
      HighMarked(m, idx, j);
    }
    NextMarked(m, idx, ShiftedLeft(m, Idx(idx)));
    if SmallBits(m, Idx(idx)) != 0 {
      MaskNonzero(m, Idx(idx));
    }
  }
}
