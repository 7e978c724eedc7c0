/** Blocks at multiples of a power of two. */
module Aligned {
  import opened Memory
  import opened Bits
  import opened Layout
  import opened Moves
  import opened Tags
  import opened Retags
  import opened Invariant
  import opened Grants
  import opened Reallocs
  import opened SystemSteps
  import opened SystemSizes
  import opened Joins

  // ----- Powers of two

  /** Whether `a & (a - 1)` is zero. */
  predicate IsPow2(a: nat) {
    a == 1 || (a > 0 && a % 2 == 0 && IsPow2(a / 2))
  }

  lemma {:induction false} PowerOf(a: nat) returns (k: nat)
    requires IsPow2(a)
    ensures a == Pow2(k)
  {
    if a == 1 {
      k := 0;
    } else {
      var j := PowerOf(a / 2);
      k := j + 1;
    }
  }

  lemma {:induction false} IsPower(k: nat)
    ensures IsPow2(Pow2(k))
  {
    if k > 0 {
      IsPower(k - 1);
    }
  }

  /** What `a <<= 1` makes of a `size_t`, `k` times, beginning with 32. */
  function Doubling(k: nat): int {
    if k == 0 then 32 else (2 * Doubling(k - 1)) % W64
  }

  lemma {:induction false} DoublingIs(k: nat)
    ensures Doubling(k) == if k < 59 then Pow2(k + 5) else 0
  {
    hide Pow2;
    ThirtyTwo();
    if k > 0 {
      DoublingIs(k - 1);
      if k < 59 {
        DoublesBelow(k + 5);
      } else {
        SixtyThree();
      }
    }
  }

  lemma DoublesBelow(j: nat)
    requires 0 < j < 64
    ensures (2 * Pow2(j - 1)) % W64 == Pow2(j)
  {
    hide Pow2;
    Pow2Values();
    Pow2Grows(63, j);
    PowerStep(j);
    SixtyThree();
  }

  lemma PowerStep(j: nat)
    requires j > 0
    ensures Pow2(j) == 2 * Pow2(j - 1)
  {
  }

  /** Doubling reaches an alignment exactly if that is at most 2^63. Beyond, the loop that rounds an
      alignment up to a power of two would never end: it doubles its way to zero. */
  lemma DoublingReaches(alignment: int)
    requires 0 <= alignment < W64
    ensures (exists k: nat :: Doubling(k) >= alignment) <==> alignment <= 0x8000_0000_0000_0000
  {
    Pow2Values();
    assert Pow2(63) == 2 * Pow2(62);
    DoublingIs(58);
    if k: nat :| Doubling(k) >= alignment {
      DoublingIs(k);
      if k < 59 {
        Pow2Grows(63, k + 5);
      }
    }
  }

  /** The first of `p`, `2p`, `4p` and so on that is at least `a`. */
  function NextDouble(a: int, p: nat): nat
    requires p > 0
    decreases a - p
  {
    if p >= a then p else NextDouble(a, 2 * p)
  }

  /** The alignment that memalign uses instead of `a`. */
  function RoundedAlignment(a: int): nat {
    NextDouble(a, 32)
  }

  lemma {:induction false} NextDoubleIs(a: int, j: nat) returns (k: nat)
    ensures k >= j && NextDouble(a, Pow2(j)) == Pow2(k) && Pow2(k) >= a && (k == j || Pow2(k) < 2 * a)
    decreases a - Pow2(j)
  {
    if Pow2(j) >= a {
      k := j;
    } else {
      k := NextDoubleIs(a, j + 1);
    }
  }

  lemma ThirtyTwo()
    ensures Pow2(5) == 32
  {
    Sixteen();
    assert Pow2(5) == 2 * Pow2(4);
  }

  /** The alignment is a power of two, at least what was asked for, and less than twice that. */
  lemma RoundedIs(a: int) returns (k: nat)
    ensures RoundedAlignment(a) == Pow2(k) && Pow2(k) >= a && Pow2(k) >= 32 && (Pow2(k) == 32 || Pow2(k) < 2 * a)
    ensures Pow2(k) % 16 == 0
  {
    ThirtyTwo();
    k := NextDoubleIs(a, 5);
    Pow2Grows(k, 5);
    Pow2Multiple(k);
  }

  /** Powers of two are not changed. */
  lemma {:induction false} PowerRounded(j: nat, k: nat)
    requires j <= k
    ensures NextDouble(Pow2(k), Pow2(j)) == Pow2(k)
    decreases k - j
  {
    Pow2Grows(k, j);
    if j < k {
      Pow2Grows(k, j + 1);
      PowerRounded(j + 1, k);
    }
  }

  lemma PowerKept(a: nat)
    requires IsPow2(a) && a >= 32
    ensures RoundedAlignment(a) == a
  {
    ThirtyTwo();
    var k := PowerOf(a);
    if k < 5 {
      Pow2Grows(4, k);
      Sixteen();
    } else {
      PowerRounded(5, k);
    }
  }

  lemma RoundedMin(a: int)
    ensures a < 32 ==> RoundedAlignment(a) == RoundedAlignment(32) == 32
  {
  }

  lemma SixtyThree()
    ensures Pow2(63) == 0x8000_0000_0000_0000
  {
    Pow2Values();
    assert Pow2(63) == 2 * Pow2(62);
  }

  /** One turn of the rounding loop. */
  lemma DoubledOnce(a: int, p: nat, j: nat)
    requires p == Pow2(j) && p < a <= 0x8000_0000_0000_0000
    ensures (2 * p) % W64 == 2 * p == Pow2(j + 1) && NextDouble(a, p) == NextDouble(a, 2 * p)
  {
  }

  /** What memalign asks of malloc: room for the request, for a leading chunk and for the alignment. */
  function MemalignRequest(alignment: nat, bytes: int): int {
    RequestSize(bytes) + alignment + MIN_CHUNK_SIZE - 8
  }

  /** The request stays in range, and what malloc grants for it is large enough for both ends. */
  lemma MemalignRoom(a: nat, bytes: int)
    requires 0 <= bytes < MAX_REQUEST - a && a >= 32
    ensures var req := MemalignRequest(a, bytes);
      0 <= req < W64 && MallocSize(req) >= RequestSize(bytes) + a + MIN_CHUNK_SIZE
  {
  }

  // ----- Where the aligned block goes

  /** `(x + a - 1) & -a`, for a power of two `a`. */
  function RoundUp(x: int, a: int): int
    requires a > 0
  {
    (x + a - 1) - (x + a - 1) % a
  }

  /** How much of the chunk `p` is given back in front: none, or at least a chunk. */
  function Lead(p: int, a: int): int
    requires a > 0
  {
    var br := RoundUp(p + 16, a) - 16;
    if (p + 16) % a == 0 then 0 else if br - p >= MIN_CHUNK_SIZE then br - p else br - p + a
  }

  lemma RoundedUp(x: int, a: int)
    requires a > 0
    ensures var y := RoundUp(x, a); x <= y < x + a && y % a == 0 && (y + a) % a == 0
  {
    ModLess(x + a - 1, a);
    var y := RoundUp(x, a);
    assert a % a == 0 by { ModOf(1, a); }
    AddMod(y, a, a);
  }

  /** The place is aligned, what is given back in front is a chunk, and what remains is large enough. */
  lemma LeadOk(p: int, a: int, size: int, nb: int)
    requires a >= MIN_CHUNK_SIZE && a % 16 == 0 && p % 16 == 0 && nb >= MIN_CHUNK_SIZE && size % 16 == 0
    requires size >= nb + a + MIN_CHUNK_SIZE
    ensures var lead := Lead(p, a);
      && (p + lead + 16) % a == 0 && lead % 16 == 0 && size - lead >= nb
      && (lead == 0 || (lead >= MIN_CHUNK_SIZE && size - lead >= MIN_CHUNK_SIZE))
  {
    hide RoundUp;
    var y := RoundUp(p + 16, a);
    RoundedUp(p + 16, a);
    Multiple16(y, a);
    if (p + 16) % a != 0 {
      LeadArithmetic(p, a, size, nb, y);
    }
  }

  /** It is the first such place. */
  lemma LeadFirst(p: int, a: int)
    requires a >= MIN_CHUNK_SIZE
    ensures FirstSpot(p, p + Lead(p, a), a) && ((p + 16) % a == 0 ==> Lead(p, a) == 0)
  {
    hide RoundUp;
    var y := RoundUp(p + 16, a);
    RoundedUp(p + 16, a);
    if (p + 16) % a != 0 {
      var q := p + Lead(p, a);
      forall x | p <= x < q ensures !SpotIn(p, x, a) {
        if (x + 16) % a == 0 {
          OneBetween(p + 16, y, x + 16, a);
        }
      }
    }
  }

  /** From `p` on up to the next multiple but one, `y` is the only multiple. */
  lemma OneBetween(p: int, y: int, x: int, a: int)
    requires a > 0 && y % a == 0 && x % a == 0 && p <= y < p + a && p <= x < y + a
    ensures x == y
  {
    var i, j := y / a, x / a;
    assert y == a * i && x == a * j;
    if j < i {
      Product(a, j + 1, i);
    } else if j > i {
      Product(a, i + 1, j);
    }
  }

  lemma Product(a: int, i: int, j: int)
    requires a > 0 && i <= j
    ensures a * i <= a * j
  {
  }

  lemma LeadArithmetic(p: int, a: int, size: int, nb: int, y: int)
    requires a >= MIN_CHUNK_SIZE && a % 16 == 0 && p % 16 == 0 && nb >= MIN_CHUNK_SIZE
    requires size >= nb + a + MIN_CHUNK_SIZE
    requires y % 16 == 0 && p + 16 <= y < p + 16 + a
    ensures var lead := if y - 16 - p >= MIN_CHUNK_SIZE then y - 16 - p else y - 16 - p + a;
      lead % 16 == 0 && lead >= MIN_CHUNK_SIZE && size - lead >= nb
  {
  }

  lemma Sixteen()
    ensures Pow2(4) == 16
  {
    assert Pow2(4) == 2 * Pow2(3) == 4 * Pow2(2) == 8 * Pow2(1) == 16;
  }

  // ----- What callers see

  /** An aligned block was granted, and no other block touched. */
  ghost predicate AlignedGrant(m: Mem, ck: Chunks, n: Mem, d: Chunks, r: int, nb: int, a: int)
  {
    var p := r - 16;
    && a > 0 && r % a == 0 && p in d && d[p].kind == Live && nb <= d[p].size <= nb + MIN_CHUNK_SIZE
    && p !in LiveOf(ck) && LiveOf(d) == LiveOf(ck)[p := d[p].size] && BlocksKept(m, n, LiveOf(ck))
  }

  /** The front of the live chunk `p` was given back. */
  ghost predicate Led(m: Mem, ck: Chunks, n: Mem, d: Chunks, p: int, q: int) {
    && p in ck && ck[p].kind == Live && q in d && d[q].kind == Live && d[q].size == p + ck[p].size - q
    && q !in LiveOf(ck) - {p}
    && LiveOf(d) == (LiveOf(ck) - {p})[q := d[q].size] && BlocksKept(m, n, LiveOf(ck) - {p})
  }

  /** Marking the second part first makes no difference. */
  lemma BothSwapped(m: Mem, p: int, s: int, rest: int)
    requires s >= 32 && rest >= 32 && s % 16 == 0 && rest % 16 == 0
    ensures SetInuse(SetInuse(m, p + s, rest), p, s) == SetBoth(m, p, s, rest)
  {
    hide SetInuse, SetBoth;
    var x, y := SetInuse(SetInuse(m, p + s, rest), p, s), SetBoth(m, p, s, rest);
    SwappedKeys(m, p, s, rest);
    forall w | w in x ensures x[w] == y[w] {
      assert Rd(x, w) == Rd(y, w) by { SwappedWord(m, p, s, rest, w); }
    }
  }

  lemma SwappedKeys(m: Mem, p: int, s: int, rest: int)
    ensures SetInuse(SetInuse(m, p + s, rest), p, s).Keys == SetBoth(m, p, s, rest).Keys
  {
  }

  lemma OrInuse(g: int, rest: int)
    requires rest % 16 == 0
    ensures OrPinuse(g % 2 + rest + CINUSE_BIT) == rest + PINUSE_BIT + CINUSE_BIT
  {
    SameParity(g, rest / 16);
  }

  lemma SwappedWord(m: Mem, p: int, s: int, rest: int, w: int)
    requires s >= 32 && rest >= 32 && s % 16 == 0 && rest % 16 == 0
    ensures Rd(SetInuse(SetInuse(m, p + s, rest), p, s), w) == Rd(SetBoth(m, p, s, rest), w)
  {
    hide SetBoth;
    BothWords(m, p, s, rest);
    OrInuse(Rd(m, p + s + HEAD), rest);
  }

  lemma LedOff(l: Mem, n: Mem, n': Mem, ck: Chunks, d: Chunks, e: Chunks, p: int, s: int)
    requires CutInto(ck, d, p, s) && ck[p].kind == Live && PayloadsKept(l, n, d) && LiveOf(e) == LiveOf(d) - {p}
    requires BlocksKept(n, n', LiveOf(e))
    ensures Led(l, ck, n', e, p, p + s)
  {
    hide PayloadsKept, BlocksKept, LiveOf;
    InLive(ck);
    InLive(d);
    InLive(e);
    var live := LiveOf(ck) - {p};
    assert LiveOf(e) == live[p + s := ck[p].size - s];
    KeptParts(l, n, d, live);
    PartsKept(n, n', LiveOf(e), live);
    BlocksTwice(l, n, n', live);
  }

  /** The whole of memalign: granted, led, and perhaps cut. */
  lemma AlignedDone(m: Mem, ck: Chunks, m1: Mem, c: Chunks, m2: Mem, d: Chunks, n: Mem, e: Chunks, r: int, req: int,
                    q: int, nb: int, a: int)
    requires Granted(m, ck, m1, c, r, req)
    requires if q == r - 16 then m2 == m1 && d == c else Led(m1, c, m2, d, r - 16, q)
    requires (n == m2 && e == d && q in d && nb <= d[q].size <= nb + MIN_CHUNK_SIZE) || Resized(m2, d, n, e, q, nb)
    requires a > 0 && (q + 16) % a == 0 && q !in LiveOf(ck)
    ensures AlignedGrant(m, ck, n, e, q + 16, nb, a)
  {
    hide BlocksKept, LiveOf;
    InLive(ck);
    InLive(c);
    InLive(d);
    InLive(e);
    var live := LiveOf(ck);
    if q == r - 16 {
      NothingChanged(m1, live);
    } else {
      assert LiveOf(c) - {r - 16} == live;
    }
    assert LiveOf(d) == live[q := d[q].size];
    BlocksTwice(m, m1, m2, live);
    if n == m2 && e == d && q in d && nb <= d[q].size <= nb + MIN_CHUNK_SIZE {
      NothingChanged(m2, live);
    } else {
      PartsKept(m2, n, LiveOf(d)[q := Min(d[q].size, e[q].size)], live);
      LiveHas(e, q);
    }
    BlocksTwice(m, m2, n, live);
  }

  /** An aligned place inside a block was no block before. */
  lemma InsideNew(m: Mem, ck: Chunks, n: Mem, d: Chunks, r: int, nb: int, q: int)
    requires Granted(m, ck, n, d, r, nb) && Layout.Shape(d) && r - 16 <= q < r - 16 + d[r - 16].size
    ensures q !in LiveOf(ck)
  {
    hide LiveOf, BlocksKept, Layout.Shape;
    InLive(ck);
    InLive(d);
    if q in LiveOf(ck) {
      LiveHas(ck, q);
      if q > r - 16 { NotInside(d, r - 16, q); }
    }
  }

  lemma LeadIs(p: int, a: int)
    requires a > 0 && (p + 16) % a != 0
    ensures var br := RoundUp(p + 16, a) - 16; Lead(p, a) == (if br - p >= MIN_CHUNK_SIZE then br else br + a) - p
  {
  }

  lemma LedSize(m: Mem, ck: Chunks, n: Mem, d: Chunks, p: int, q: int)
    requires p in ck && ck[p].kind == Live && ((q == p && d == ck) || Led(m, ck, n, d, p, q))
    ensures q in d && d[q].kind == Live && d[q].size == p + ck[p].size - q
  {
  }

  ghost predicate EndsVia(m: Mem, ck: Chunks, m2: Mem, d: Chunks, n: Mem, e: Chunks, p: int, q: int, nb: int) {
    && (if q == p then m2 == m && d == ck else Led(m, ck, m2, d, p, q))
    && ((n == m2 && e == d && q in d && nb <= d[q].size <= nb + MIN_CHUNK_SIZE) || Resized(m2, d, n, e, q, nb))
  }

  /** The two ends of the block `p` were given back where there was something to give. */
  ghost predicate Ends(m: Mem, ck: Chunks, n: Mem, e: Chunks, p: int, q: int, nb: int) {
    exists m2: Mem, d: Chunks :: EndsVia(m, ck, m2, d, n, e, p, q, nb)
  }

  lemma EndsDone(m: Mem, ck: Chunks, m1: Mem, c: Chunks, n: Mem, e: Chunks, r: int, req: int, q: int, nb: int, a: int)
    requires Granted(m, ck, m1, c, r, req) && Ends(m1, c, n, e, r - 16, q, nb) && a > 0 && (q + 16) % a == 0
    requires q !in LiveOf(ck)
    ensures AlignedGrant(m, ck, n, e, q + 16, nb, a)
  {
    hide Granted, Led, Resized, LiveOf, AlignedGrant;
    var m2: Mem, d: Chunks :| EndsVia(m1, c, m2, d, n, e, r - 16, q, nb);
    AlignedDone(m, ck, m1, c, m2, d, n, e, r, req, q, nb, a);
  }

  lemma NextDoubleEnd(a: int, p: nat)
    requires p > 0 && p >= a
    ensures NextDouble(a, p) == p
  {
  }

  lemma GrantedChunk(m: Mem, ck: Chunks, n: Mem, d: Chunks, r: int, nb: int)
    requires Granted(m, ck, n, d, r, nb)
    ensures r - 16 in d && d[r - 16].kind == Live && d[r - 16].size >= nb
  {
  }

  lemma EndsIs(m: Mem, ck: Chunks, m2: Mem, d: Chunks, n: Mem, e: Chunks, p: int, q: int, nb: int)
    requires if q == p then m2 == m && d == ck else Led(m, ck, m2, d, p, q)
    requires (n == m2 && e == d && q in d && nb <= d[q].size <= nb + MIN_CHUNK_SIZE) || Resized(m2, d, n, e, q, nb)
    ensures Ends(m, ck, n, e, p, q, nb)
  {
    hide Led, Resized;
    assert EndsVia(m, ck, m2, d, n, e, p, q, nb);
  }
}
