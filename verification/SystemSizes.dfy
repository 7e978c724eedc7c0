/** What the heap asks the system for, and what it may rely on in the answer. */
module SystemSizes {
  import opened Memory
  import opened Bits
  import opened BinMap
  import opened Bins
  import opened Layout
  import opened Segments
  import opened Invariant
  import opened Growth
  import opened SegmentGrowth
  import opened SystemSteps
  import opened Moves
  import opened Tags
  import opened BinSteps
  import opened Retags

  /** CMFAIL */
  const CMFAIL: int := W64 - 1

  const SYS_ALLOC_PADDING: int := TOP_FOOT_SIZE + 16
  const TRIM_THRESHOLD: int := 2 * 1024 * 1024
  const MAX_RELEASE_CHECK_RATE: int := 4095

  /** granularity_align: the mask clears the low bits, since the granularity is a power of two. */
  function GranularityAlign(s: int): int {
    var g := Pow2(GRANULARITY_BITS);
    var t := (s + g - 1) % W64;
    t - t % g
  }

  /** What sys_alloc asks for. */
  function AllocSize(nb: int): int {
    GranularityAlign((nb + SYS_ALLOC_PADDING) % W64)
  }

  /** What the system guarantees about a region it has just handed out. */
  ghost predicate Mapped(segs: seq<Segment>, base: int, size: int) {
    RegionOk(base, size) && Outside(segs, base, size)
  }

  // ----- The granularity

  lemma {:induction false} Pow2Grows(n: nat, k: nat)
    requires k <= n
    ensures Pow2(k) <= Pow2(n) && Pow2(k) > 0
    decreases n
  {
    if k < n {
      Pow2Grows(n - 1, k);
    } else if k > 0 {
      Pow2Grows(k - 1, k - 1);
    }
  }

  lemma {:induction false} Pow2Multiple(n: nat)
    requires n >= 4
    ensures Pow2(n) % 16 == 0
    decreases n
  {
    if n > 4 {
      Pow2Multiple(n - 1);
      Double16(Pow2(n - 1));
    } else {
      assert Pow2(4) == 2 * Pow2(3) == 4 * Pow2(2) == 8 * Pow2(1) == 16;
    }
  }

  lemma Double16(x: int)
    requires x % 16 == 0
    ensures (2 * x) % 16 == 0
  {
  }

  lemma Granularity()
    ensures var g := Pow2(GRANULARITY_BITS); 4096 <= g <= 0x4000_0000_0000_0000 && g % 16 == 0
  {
    Pow2Grows(GRANULARITY_BITS, 12);
    Pow2Grows(62, GRANULARITY_BITS);
    Pow2Multiple(GRANULARITY_BITS);
    Pow2Values();
  }

  lemma Pow2Values()
    ensures Pow2(12) == 4096 && Pow2(62) == 0x4000_0000_0000_0000
  {
    Pow2Add(6, 6);
    Pow2Add(12, 19);
    Pow2Add(31, 31);
    Pow2Add(12, 7);
    Pow2Six();
  }

  lemma Pow2Six()
    ensures Pow2(6) == 64 && Pow2(7) == 128
  {
    assert Pow2(3) == 8;
    Pow2Add(3, 3);
    assert Pow2(7) == 2 * Pow2(6);
  }

  lemma {:induction false} Pow2Add(a: nat, b: nat)
    ensures Pow2(a + b) == Pow2(a) * Pow2(b)
    decreases b
  {
    if b > 0 {
      Pow2Add(a, b - 1);
      assert Pow2(a + b) == 2 * Pow2(a + b - 1);
      Doubled(Pow2(a), Pow2(b - 1));
    }
  }

  lemma Doubled(x: int, y: int)
    ensures 2 * (x * y) == x * (2 * y)
  {
  }

  lemma Multiple16(x: int, g: int)
    requires g > 0 && x % g == 0 && g % 16 == 0
    ensures x % 16 == 0
  {
    var k, j := x / g, g / 16;
    assert x == g * k && g == 16 * j;
    Regroup(j, k);
    ModOf(j * k, 16);
  }

  lemma Regroup(j: int, k: int)
    ensures (16 * j) * k == 16 * (j * k)
  {
  }

  lemma ModLess(t: int, g: int)
    requires g > 0
    ensures 0 <= t % g < g && (t - t % g) % g == 0
  {
    ModOf(t / g, g);
    assert t == g * (t / g) + t % g;
  }

  /** The test `asize <= nb` catches every overflow: past it, the region has room for the request and
      for the foot, with 16 bytes to spare. */
  lemma RoomEnough(nb: int)
    requires 0 <= nb < W64
    ensures var a := AllocSize(nb);
      a > nb ==> a >= nb + SYS_ALLOC_PADDING && a % Pow2(GRANULARITY_BITS) == 0 && a % 16 == 0 && a < W64
    ensures nb + SYS_ALLOC_PADDING >= W64 ==> AllocSize(nb) <= nb
  {
    Granularity();
    AlignedRoom(nb, Pow2(GRANULARITY_BITS));
  }

  lemma RoomLeft(nb: int)
    requires 0 <= nb < W64
    ensures AllocSize(nb) > nb ==> AllocSize(nb) - TOP_FOOT_SIZE > nb
  {
    hide AllocSize, Pow2;
    RoomEnough(nb);
  }

  /** The test catches nothing else; and what is asked for is the least number of whole units that will do. */
  lemma AllocLeast(nb: int)
    requires 0 <= nb < W64
    ensures var a, g := AllocSize(nb), Pow2(GRANULARITY_BITS);
      && (a > nb <==> nb + SYS_ALLOC_PADDING + g <= W64)
      && (a > nb ==> a % g == 0 && nb + SYS_ALLOC_PADDING <= a < nb + SYS_ALLOC_PADDING + g)
  {
    hide Pow2;
    Granularity();
    AlignedRoom(nb, Pow2(GRANULARITY_BITS));
  }

  lemma AlignedRoom(nb: int, g: int)
    requires 0 <= nb < W64 && 4096 <= g <= 0x4000_0000_0000_0000 && g % 16 == 0
    ensures var t := ((nb + SYS_ALLOC_PADDING) % W64 + g - 1) % W64;
      var a := t - t % g;
      && (a > nb ==> a >= nb + SYS_ALLOC_PADDING && a % g == 0 && a % 16 == 0 && a < W64)
      && (nb + SYS_ALLOC_PADDING >= W64 ==> a <= nb)
      && (a > nb <==> nb + SYS_ALLOC_PADDING + g <= W64) && (a > nb ==> a < nb + SYS_ALLOC_PADDING + g)
  {
    var t := ((nb + SYS_ALLOC_PADDING) % W64 + g - 1) % W64;
    ModLess(t, g);
    Multiple16(t - t % g, g);
    RoomArithmetic(nb, g, t, t % g);
  }

  lemma RoomArithmetic(nb: int, g: int, t: int, r: int)
    requires 0 <= nb < W64 && 4096 <= g <= 0x4000_0000_0000_0000 && 0 <= r < g
    requires t == ((nb + SYS_ALLOC_PADDING) % W64 + g - 1) % W64
    ensures t - r > nb ==> t - r >= nb + SYS_ALLOC_PADDING && t - r < W64
    ensures nb + SYS_ALLOC_PADDING >= W64 ==> t - r <= nb
    ensures t - r > nb <==> nb + SYS_ALLOC_PADDING + g <= W64
    ensures t - r > nb ==> t - r < nb + SYS_ALLOC_PADDING + g
  {
  }

  lemma MappedUsable(segs: seq<Segment>, base: int, size: int)
    requires Mapped(segs, base, size) && size > TOP_FOOT_SIZE
    ensures Usable(base, size) && Outside(segs, base, size) && RegionOk(base, size)
  {
    Granularity();
    Multiple16(base, Pow2(GRANULARITY_BITS));
    Multiple16(size, Pow2(GRANULARITY_BITS));
  }

  // ----- Sums

  ghost function SegTotal(segs: seq<Segment>): int {
    if segs == [] then 0 else segs[0].size + SegTotal(segs[1..])
  }

  lemma {:induction false} TotalUpdate(segs: seq<Segment>, k: nat, s: Segment)
    requires k < |segs|
    ensures SegTotal(segs[k := s]) == SegTotal(segs) - segs[k].size + s.size
  {
    if k == 0 {
      assert segs[0 := s][1..] == segs[1..];
    } else {
      TotalUpdate(segs[1..], k - 1, s);
      assert segs[k := s][1..] == segs[1..][k - 1 := s];
    }
  }

  lemma {:induction false} TotalRemoved(segs: seq<Segment>, k: nat)
    requires k < |segs|
    ensures SegTotal(WithoutSegment(segs, k)) == SegTotal(segs) - segs[k].size
  {
    if k == 0 {
      assert WithoutSegment(segs, 0) == segs[1..];
    } else {
      TotalRemoved(segs[1..], k - 1);
      assert WithoutSegment(segs, k)[1..] == WithoutSegment(segs[1..], k - 1);
    }
  }

  lemma TotalPushed(ck: Layout.Chunks, segs: seq<Segment>, a: int, base: int, size: int)
    requires a in ck && |segs| > 0
    ensures SegTotal(Pushed(ck, segs, a, base, size)) == SegTotal(segs) + size
  {
    var t := Pushed(ck, segs, a, base, size);
    assert t[1..][1..] == segs[1..];
    assert SegTotal(t[1..]) == segs[0].size + SegTotal(segs[1..]);
  }

  // ----- Appending

  lemma AppendReady(ck: Layout.Chunks, segs: seq<Segment>, top: int, base: int, size: int)
    requires LayoutOk(ck, segs) && Regions(segs) && top in ck && ck[top].kind == Top
    requires Mapped(segs, base, size) && |segs| > 0 && base == segs[0].base + segs[0].size && size % 16 == 0
    ensures var s := ck[top].size + size;
      && CanRetop(ck, segs, top, s) && Regions(Retopped(segs, top, s))
      && Retopped(segs, top, s)[0] == Segment(segs[0].base, segs[0].size + size, segs[0].rec)
      && |Retopped(segs, top, s)| == |segs|
  {
    hide LayoutOk, Shape, RegionOk, OutsideOthers, Outside, ClearOfState;
    var s := ck[top].size + size;
    TopEnd(ck, segs, top);
    AppendOthers(ck, segs, base, size);
    AppendRegion(segs, base, size);
    AppendClear(ck, segs, top, base, size);
  }

  lemma AppendClear(ck: Layout.Chunks, segs: seq<Segment>, top: int, base: int, size: int)
    requires LayoutOk(ck, segs) && top in ck && ck[top].kind == Top && |segs| > 0 && base == segs[0].base + segs[0].size
    requires RegionOk(base, size)
    ensures ClearOfState(top, ck[top].size + size + TOP_FOOT_SIZE)
  {
    hide LayoutOk, Shape;
    TopEnd(ck, segs, top);
    OkShape(ck, segs);
    ChunkIn(ck, top);
    ChunkIn(ck, top + ck[top].size);
  }

  lemma AppendRegion(segs: seq<Segment>, base: int, size: int)
    requires Regions(segs) && |segs| > 0 && base == segs[0].base + segs[0].size && RegionOk(base, size)
    ensures RegionOk(segs[0].base, segs[0].size + size) && size > 0
  {
    assert RegionOk(segs[0].base, segs[0].size);
    AddMod(segs[0].size, size, Pow2(GRANULARITY_BITS));
  }

  lemma AppendOthers(ck: Layout.Chunks, segs: seq<Segment>, base: int, size: int)
    requires LayoutOk(ck, segs) && Outside(segs, base, size) && |segs| > 0 && base == segs[0].base + segs[0].size
    ensures OutsideOthers(segs, 0, segs[0].base, segs[0].size + size)
  {
    hide Shape, Records, InSegs;
    forall i | 1 <= i < |segs| ensures segs[i].base + segs[i].size <= segs[0].base || base + size <= segs[i].base {
      assert Based(ck, segs[i]) && Based(ck, segs[0]);
    }
  }

  // ----- Walks along the segment list

  /** segment_holds */
  ghost predicate Holds(s: Segment, addr: int) {
    s.base <= addr < s.base + s.size
  }

  lemma HoldsIs(s: Segment, addr: int)
    ensures Holds(s, addr) <==> addr >= s.base && addr < s.base + s.size
  {
  }

  /** The list starts in the malloc_state, and its records are not null. */
  lemma Listed(m: Mem, smallmap: bv32, treemap: bv32, b: Bins, ck: Layout.Chunks, segs: seq<Segment>, least: int)
    requires Loose(m, smallmap, treemap, b, ck, segs, least)
    ensures LayoutOk(ck, segs) && SegList(m, segs) && (segs != [] ==> segs[0].rec == SEG)
    ensures forall i | 0 <= i < |segs| :: segs[i].rec > 0
  {
    hide Loose, LayoutOk, Shape, SegList, Regions, Records, Tagged, BinsReady, FreeIn, AboveLeast;
    LooseParts(m, smallmap, treemap, b, ck, segs, least);
    FirstRecord(ck, segs);
    forall i | 0 <= i < |segs| ensures segs[i].rec > 0 {
      if i > 0 { RecordPositive(ck, segs, i); }
    }
  }

  lemma RecordPositive(ck: Layout.Chunks, segs: seq<Segment>, i: nat)
    requires Shape(ck) && Records(ck, segs) && 1 <= i < |segs|
    ensures segs[i].rec > 0
  {
    hide Shape;
    assert Recorded(ck, segs[i]);
    ChunkIn(ck, segs[i].rec - 16);
  }

  lemma OneHolder(ck: Layout.Chunks, segs: seq<Segment>, addr: int, i: nat, k: nat)
    requires LayoutOk(ck, segs) && i < |segs| && k < |segs| && Holds(segs[k], addr)
    ensures Holds(segs[i], addr) <==> i == k
  {
    hide LayoutOk, SegmentsApart;
    LayoutApart(ck, segs);
    if Holds(segs[i], addr) {
      OneSegment(segs, addr, i, k);
    }
  }

  function AlignOffset(a: int): int {
    if a % 16 == 0 then 0 else (16 - a % 16) % 16
  }

  /** The header of an empty small bin. */
  ghost predicate EmptyHeader(m: Mem, i: int) {
    Rd(m, SmallBinAt(i) + FD) == SmallBinAt(i) && Rd(m, SmallBinAt(i) + BK) == SmallBinAt(i)
  }

  lemma BinLinked(m: Mem, n: Mem, i: int, j: int)
    requires 0 <= j <= i && n == m[SmallBinAt(i) + FD := SmallBinAt(i)][SmallBinAt(i) + BK := SmallBinAt(i)]
    requires j < i ==> EmptyHeader(m, j)
    ensures EmptyHeader(n, j)
  {
  }

  // ----- Settling after the system's answers

  lemma NothingYet(sz: map<int, int>, ck: Layout.Chunks, dv: int, dvsize: int, top: int, topsize: int)
    requires Settled(sz, ck, [], dv, dvsize, top, topsize)
    ensures ck == map[] && dv == 0 && dvsize == 0 && top == 0 && topsize == 0 && sz == map[] && LiveOf(ck) == map[]
  {
  }

  lemma FirstSettled(sz: map<int, int>, d: Layout.Chunks, segs: seq<Segment>, base: int, s: int)
    requires Coalesced(d) && FreeOf(d) == map[] && sz == map[] && segs != [] && base in d
    requires d[base] == Layout.Chunk(s, Layout.Top, 0)
    ensures Settled(sz, d, segs, 0, 0, base, s)
  {
    hide Coalesced;
  }

  /** The top was given another size, and the bins and the designated victim are as before. */
  lemma RetopSettled(sz: map<int, int>, ck: Layout.Chunks, segs: seq<Segment>, segs': seq<Segment>, dv: int,
                     dvsize: int, top: int, topsize: int, s: int)
    requires Settled(sz, ck, segs, dv, dvsize, top, topsize) && LayoutOk(ck, segs) && CanRetop(ck, segs, top, s)
    requires segs' != []
    requires var d := ResizeTop(ck, top, s); Coalesced(d) && FreeOf(d) == FreeOf(ck)
    ensures Settled(sz, ResizeTop(ck, top, s), segs', dv, dvsize, top, s)
  {
    hide LayoutOk, Coalesced, FreeOf, ClearOfState, OutsideOthers;
    var d := ResizeTop(ck, top, s);
    RetopNotFree(ck, segs, top, s);
    assert dv != 0 ==> dv != top && dv != top + s && dv != top + ck[top].size by { RetopNotFree(ck, segs, top, s); }
  }

  lemma UsableAligned(base: int, size: int)
    requires Usable(base, size)
    ensures base % 16 == 0 && size % 16 == 0 && base > 0 && size > TOP_FOOT_SIZE
  {
  }

  /** The writes of the first-time initialization: the record, the bin headers, the top and its foot. */
  lemma FirstWords(m: Mem, m1: Mem, m2: Mem, n: Mem, smallmap: bv32, treemap: bv32, b: Bins, least: int, base: int,
                   size: int, least': int)
    requires Usable(base, size) && RegionOk(base, size) && b.sz == map[] && least' <= base
    requires m1 == m[SEG := base][SEG + SEG_SIZE := size][SEG + SEG_FLAGS := USE_MMAP_BIT]
    requires forall w {:trigger Rd(m2, w)} :: !SmallHeader(w) ==> Rd(m2, w) == Rd(m1, w)
    requires n == m2[base + HEAD := size - TOP_FOOT_SIZE + PINUSE_BIT][base + size - TOP_FOOT_SIZE + HEAD := TOP_FOOT_SIZE]
    requires Loose(m, smallmap, treemap, b, map[], [], least)
    ensures var d, segs := AddTop(map[], base, size), [Segment(base, size, SEG)];
      && Loose(n, smallmap, treemap, b, d, segs, least')
      && LiveOf(d) == map[] && Settled(b.sz, d, segs, 0, 0, base, size - TOP_FOOT_SIZE)
  {
    hide Loose, LayoutOk, Usable, RegionOk, AddTop, Coalesced, LiveOf, FreeOf;
    UsableAligned(base, size);
    forall w | STATE <= w < STATE + STATE_SIZE && !SmallHeader(w) ensures Rd(n, w) == Rd(m1, w) {
      FirstClear(base, size, w);
      assert Rd(m2, w) == Rd(m1, w);
    }
    forall i | 0 <= i < NBINS ensures Rd(n, TreeBinAt(i)) == Rd(m, TreeBinAt(i)) {
      assert !SmallHeader(TreeBinAt(i));
    }
    FirstRegion(m, n, smallmap, treemap, b, least, base, size);
    LowerLeast(n, smallmap, treemap, b, AddTop(map[], base, size), [Segment(base, size, SEG)], base, least');
    FirstSettled(b.sz, AddTop(map[], base, size), [Segment(base, size, SEG)], base, size - TOP_FOOT_SIZE);
  }

  /** Extending the newest segment by the region that follows it. */
  lemma AppendStep(m: Mem, smallmap: bv32, treemap: bv32, b: Bins, ck: Layout.Chunks, segs: seq<Segment>, least: int,
                   dv: int, dvsize: int, top: int, topsize: int, base: int, size: int)
    requires Loose(m, smallmap, treemap, b, ck, segs, least) && Settled(b.sz, ck, segs, dv, dvsize, top, topsize)
    requires segs != []
    requires Mapped(segs, base, size) && size > TOP_FOOT_SIZE && base == segs[0].base + segs[0].size
    ensures top in ck && top % 16 == 0 && Rd(m, SEG + SEG_SIZE) == segs[0].size
    ensures var s := topsize + size;
      var n := m[SEG + SEG_SIZE := segs[0].size + size][top + HEAD := s + PINUSE_BIT][top + s + HEAD := TOP_FOOT_SIZE];
      var d, segs' := ResizeTop(ck, top, s), segs[0 := Segment(segs[0].base, segs[0].size + size, segs[0].rec)];
      && Loose(n, smallmap, treemap, b, d, segs', least) && Settled(b.sz, d, segs', dv, dvsize, top, s)
      && LiveOf(d) == LiveOf(ck) && BlocksKept(m, n, LiveOf(ck))
  {
    hide Loose, LayoutOk, SegList, Mapped, RegionOk, Outside, Coalesced, LiveOf, FreeOf, CanRetop, BlocksKept, DvOk,
         Retopped, Usable, ResizeTop;
    Listed(m, smallmap, treemap, b, ck, segs, least);
    ListWords(m, segs, 0);
    assert Regions(segs) && Shape(ck) by { LooseParts(m, smallmap, treemap, b, ck, segs, least); }
    MappedUsable(segs, base, size);
    UsableAligned(base, size);
    ChunkIn(ck, top);
    AppendReady(ck, segs, top, base, size);
    var s := topsize + size;
    RetopIs(segs, top, s, size);
    Retop(m, smallmap, treemap, b, ck, segs, least, top, s);
    RetopSettled(b.sz, ck, segs, Retopped(segs, top, s), dv, dvsize, top, topsize, s);
  }

  lemma RetopIs(segs: seq<Segment>, top: int, s: int, size: int)
    requires segs != [] && Retopped(segs, top, s)[0] == Segment(segs[0].base, segs[0].size + size, segs[0].rec)
    ensures Retopped(segs, top, s) == segs[0 := Segment(segs[0].base, segs[0].size + size, segs[0].rec)]
  {
  }

  // ----- add_segment as a whole

  /** Where the record goes if the old top is large enough: the last aligned place with room for it and for
      fenceposts. */
  function RecordSpot(oldEnd: int): int {
    var rawsp := oldEnd - (RECORD_SIZE + 32 + 15);
    rawsp + AlignOffset(rawsp + 16)
  }

  ghost predicate AddReady(segs: seq<Segment>, ck: Layout.Chunks, top: int, base: int, size: int) {
    && top in ck && |segs| > 0
    && var hi := segs[0].base + segs[0].size;
      && AddPlaces(top, RecordAt(ck, top), hi, base, size) && hi % 16 == 0 && Holds(segs[0], top)
      && RecordAt(ck, top) == (if hi - TOP_FOOT_SIZE < top + MIN_CHUNK_SIZE then top else hi - TOP_FOOT_SIZE)
  }

  lemma AddStart(m: Mem, smallmap: bv32, treemap: bv32, b: Bins, ck: Layout.Chunks, segs: seq<Segment>, least: int,
                 dv: int, dvsize: int, top: int, topsize: int, base: int, size: int)
    requires Loose(m, smallmap, treemap, b, ck, segs, least) && Settled(b.sz, ck, segs, dv, dvsize, top, topsize)
    requires segs != []
    requires Mapped(segs, base, size) && size > TOP_FOOT_SIZE
    ensures AddReady(segs, ck, top, base, size) && segs[0].rec == SEG && Rd(m, SEG) == segs[0].base
    ensures Rd(m, SEG + SEG_SIZE) == segs[0].size
    ensures base % 16 == 0 && Holds(segs[0], top) && top in ck
    ensures var hi := segs[0].base + segs[0].size;
      var csp := RecordAt(ck, top);
      && (csp == if RecordSpot(hi) < top + MIN_CHUNK_SIZE then top else RecordSpot(hi))
      && csp % 8 == 0 && hi % 8 == 0 && csp + RECORD_SIZE + 32 <= hi && (csp != top ==> csp >= top + MIN_CHUNK_SIZE)
  {
    hide Loose, LayoutOk, SegList, Mapped, RegionOk, Outside, Usable, Settled, RecordAt, RecordSpot, AddPlaces;
    Listed(m, smallmap, treemap, b, ck, segs, least);
    ListWords(m, segs, 0);
    MappedUsable(segs, base, size);
    UsableAligned(base, size);
    SettledTop(b.sz, ck, segs, dv, dvsize, top, topsize);
    TopEnd(ck, segs, top);
    AddPlacesIs(ck, segs, top, base, size);
    SpotIs(segs[0].base + segs[0].size);
    PlacesBounds(top, RecordAt(ck, top), segs[0].base + segs[0].size, base, size);
  }

  lemma SpotIs(hi: int)
    requires hi % 16 == 0
    ensures RecordSpot(hi) == hi - TOP_FOOT_SIZE && hi % 8 == 0
  {
  }

  lemma PlacesBounds(a: int, c: int, hi: int, base: int, size: int)
    requires AddPlaces(a, c, hi, base, size)
    ensures c % 8 == 0 && c + RECORD_SIZE + 32 <= hi && (c != a ==> c >= a + MIN_CHUNK_SIZE)
  {
  }

  lemma SettledTop(sz: map<int, int>, ck: Layout.Chunks, segs: seq<Segment>, dv: int, dvsize: int, top: int,
                   topsize: int)
    requires Settled(sz, ck, segs, dv, dvsize, top, topsize) && segs != []
    ensures top in ck && ck[top].kind == Layout.Top && ck[top].size == topsize
  {
  }

  lemma AddStep(m: Mem, l: Mem, n: Mem, smallmap: bv32, treemap: bv32, b: Bins, ck: Layout.Chunks, segs: seq<Segment>,
                least: int,
                dv: int, dvsize: int, top: int, topsize: int, base: int, size: int)
    requires AddReady(segs, ck, top, base, size) && least <= base && size > TOP_FOOT_SIZE
    requires var c, hi := RecordAt(ck, top), segs[0].base + segs[0].size;
      && Fenced(AddWrites(m, c, base, size), l, c + RECORD_SIZE, hi)
      && n == (if c != top then SetFree(l, top, c - top, c) else l)
    requires Loose(m, smallmap, treemap, b, ck, segs, least) && Settled(b.sz, ck, segs, dv, dvsize, top, topsize)
    requires Mapped(segs, base, size)
    ensures var d, t, c := AddedLayout(ck, top, base, size), Pushed(ck, segs, top, base, size), RecordAt(ck, top);
      && Loose(n, smallmap, treemap, b, d, t, least) && PayloadsKept(m, n, ck) && LiveOf(d) == LiveOf(ck)
      && Settled(if c != top then b.sz[top := c - top] else b.sz, d, t, dv, dvsize, base, size - TOP_FOOT_SIZE)
      && (c != top ==> top in d && d[top] == Layout.Chunk(c - top, Layout.Free, 0) && top !in b.sz)
  {
    hide Loose, LayoutOk, Mapped, RegionOk, Outside, Coalesced, LiveOf, FreeOf, DvOk, Usable, AddedLayout, Pushed,
         AddPlaces, AddWrites, SetFree, Fenced,
         PayloadsKept, AddedOnly, AddedTags, AddedRecords, RecordAt, AddedChunks, FreeIn, AboveLeast;
    var d, t, c, hi := AddedLayout(ck, top, base, size), Pushed(ck, segs, top, base, size),
        RecordAt(ck, top), segs[0].base + segs[0].size;
    MappedUsable(segs, base, size);
    LooseHeld(m, smallmap, treemap, b, ck, segs, least);
    HeldParts(m, smallmap, treemap, b, ck, least);
    SettledTop(b.sz, ck, segs, dv, dvsize, top, topsize);
    AddOnly(m, l, n, top, c, hi, base, size);
    FencedTags(m, l, n, top, c, hi, base, size);
    TopEnd(ck, segs, top);
    AddedRegion(m, n, smallmap, treemap, b, ck, segs, least, top, base, size);
    AddedFacts(ck, segs, top, base, size, b.sz, least);
    AddedIs(ck, segs, top, base, size);
    AddedSame(ck, segs, top, base, size);
    PushedAt(ck, segs, top, base, size, 0);
    assert top > 0 by { OkShape(ck, segs); ChunkIn(ck, top); }
    AddedSettled(b.sz, ck, d, segs, t, dv, dvsize, top, topsize, c, base, size);
  }

  lemma AddedSettled(sz: map<int, int>, ck: Layout.Chunks, d: Layout.Chunks, segs: seq<Segment>, t: seq<Segment>,
                     dv: int, dvsize: int, top: int, topsize: int, c: int, base: int, size: int)
    requires Settled(sz, ck, segs, dv, dvsize, top, topsize) && segs != [] && t != [] && top > 0
    requires top in ck && AddedChunks(ck, d, top, c, base, size) && Coalesced(d) && (c == top || c - top == topsize)
    requires FreeOf(d) == (if c != top then FreeOf(ck)[top := ck[top].size] else FreeOf(ck))
    requires base in d && d[base] == Layout.Chunk(size - TOP_FOOT_SIZE, Layout.Top, 0)
    ensures Settled(if c != top then sz[top := c - top] else sz, d, t, dv, dvsize, base, size - TOP_FOOT_SIZE)
    ensures top !in sz
  {
    hide Coalesced;
  }

  /** Blocks outlive two steps, the second one in a layout with the same blocks. */
  lemma NewBlocks(l: Mem, m: Mem, n: Mem, ck: Layout.Chunks, d: Layout.Chunks)
    requires PayloadsKept(l, m, ck) && (PayloadsKept(m, n, d) || n == m) && LiveOf(d) == LiveOf(ck)
    ensures BlocksKept(l, n, LiveOf(ck))
  {
    hide PayloadsKept, BlocksKept, LiveOf;
    LiveInLive(ck);
    LiveInLive(d);
    KeptBlocks(l, m, ck, LiveOf(ck));
    if n != m {
      KeptBlocks(m, n, d, LiveOf(ck));
      BlocksTwice(l, m, n, LiveOf(ck));
    }
  }

  lemma PushedFacts(ck: Layout.Chunks, segs: seq<Segment>, a: int, base: int, size: int)
    requires a in ck && |segs| > 0
    ensures var t := Pushed(ck, segs, a, base, size);
      |t| == |segs| + 1 && t[0] == Segment(base, size, SEG) && SegTotal(t) == SegTotal(segs) + size
  {
    hide SegTotal;
    TotalPushed(ck, segs, a, base, size);
  }

  // ----- Why the footprint cannot overflow

  ghost predicate Between(lo: int, x: int, hi: int) {
    lo <= x < hi
  }

  ghost function Range(lo: int, hi: int): set<int> {
    set x: int | lo <= x < hi && Between(lo, x, hi)
  }

  lemma {:induction false} RangeSize(lo: int, hi: int)
    requires lo <= hi
    ensures |Range(lo, hi)| == hi - lo
    decreases hi - lo
  {
    if lo < hi {
      RangeSize(lo, hi - 1);
      assert Range(lo, hi) == Range(lo, hi - 1) + {hi - 1};
    } else {
      assert Range(lo, hi) == {};
    }
  }

  /** The addresses that the segments cover. */
  ghost function Cover(segs: seq<Segment>): set<int> {
    if segs == [] then {} else Range(segs[0].base, segs[0].base + segs[0].size) + Cover(segs[1..])
  }

  lemma {:induction false} CoverIn(segs: seq<Segment>, x: int)
    ensures x in Cover(segs) <==> exists i :: 0 <= i < |segs| && Holds(segs[i], x)
  {
    if segs != [] {
      CoverIn(segs[1..], x);
      if x in Range(segs[0].base, segs[0].base + segs[0].size) {
        assert Holds(segs[0], x);
      }
      if i :| 0 <= i < |segs[1..]| && Holds(segs[1..][i], x) {
        assert Holds(segs[i + 1], x);
      }
      if i :| 0 <= i < |segs| && Holds(segs[i], x) {
        assert i > 0 ==> Holds(segs[1..][i - 1], x);
      }
    }
  }

  lemma {:induction false} CoverSize(segs: seq<Segment>)
    requires SegmentsApart(segs) && forall i | 0 <= i < |segs| :: segs[i].size > 0
    ensures |Cover(segs)| == SegTotal(segs)
  {
    if segs != [] {
      CoverSize(segs[1..]);
      var r := Range(segs[0].base, segs[0].base + segs[0].size);
      RangeSize(segs[0].base, segs[0].base + segs[0].size);
      forall x | x in Cover(segs[1..]) ensures x !in r {
        CoverIn(segs[1..], x);
      }
      assert r !! Cover(segs[1..]);
    }
  }

  lemma SubsetSize(a: set<int>, b: set<int>)
    requires a <= b
    ensures |a| <= |b|
  {
    assert b == a + (b - a);
  }

  /** The segments are apart, so that together they are smaller than the address space. */
  lemma TotalBound(segs: seq<Segment>)
    requires SegmentsApart(segs) && Regions(segs)
    ensures 0 <= SegTotal(segs) < W64
  {
    hide SegmentsApart;
    forall i | 0 <= i < |segs| ensures segs[i].size > 0 { assert RegionOk(segs[i].base, segs[i].size); }
    CoverSize(segs);
    RangeSize(1, W64);
    forall x | x in Cover(segs) ensures x in Range(1, W64) {
      CoverIn(segs, x);
      var i :| 0 <= i < |segs| && Holds(segs[i], x);
      assert RegionOk(segs[i].base, segs[i].size);
    }
    SubsetSize(Cover(segs), Range(1, W64));
  }

  /** The region can be put in front of segment `k`. */
  lemma FrontAllowed(m: Mem, smallmap: bv32, treemap: bv32, b: Bins, ck: Layout.Chunks, segs: seq<Segment>, least: int,
                     k: nat, base: int, size: int, nb: int)
    requires MIN_CHUNK_SIZE <= nb && nb % 16 == 0 && size >= nb + SYS_ALLOC_PADDING && k < |segs|
    requires base + size == segs[k].base
    requires Loose(m, smallmap, treemap, b, ck, segs, least) && Mapped(segs, base, size)
    ensures CanFront(segs, k, base, size, nb) && RegionOk(base, size) && Rd(m, segs[k].rec + SEG_FLAGS) == USE_MMAP_BIT
    ensures SegTotal(Rebound(segs, k, base, size + segs[k].size)) == SegTotal(segs) + size
  {
    hide Loose, LayoutOk, SegList, Mapped, RegionOk, Outside, Usable, SegTotal;
    Listed(m, smallmap, treemap, b, ck, segs, least);
    ListWords(m, segs, k);
    MappedUsable(segs, base, size);
    TotalUpdate(segs, k, Segment(base, size + segs[k].size, segs[k].rec));
  }

  /** The limit test of sys_alloc: it turns down what goes over the limit, and nothing else, because the
      footprint itself cannot overflow when the system has an answer. */
  lemma FootprintFits(m: Mem, smallmap: bv32, treemap: bv32, b: Bins, ck: Layout.Chunks, segs: seq<Segment>,
                      least: int, size: int)
    requires Loose(m, smallmap, treemap, b, ck, segs, least)
    ensures 0 <= SegTotal(segs) < W64
  {
    hide Loose, LayoutOk, Regions, SegmentsApart, SegTotal;
    LooseHeld(m, smallmap, treemap, b, ck, segs, least);
    LayoutApart(ck, segs);
    TotalBound(segs);
  }

  lemma SystemReady(m: Mem, smallmap: bv32, treemap: bv32, b: Bins, ck: Layout.Chunks, segs: seq<Segment>, least: int,
                    dv: int, dvsize: int, top: int, topsize: int)
    requires Loose(m, smallmap, treemap, b, ck, segs, least) && Settled(b.sz, ck, segs, dv, dvsize, top, topsize)
    ensures top == 0 <==> segs == []
    ensures segs == [] ==> SegTotal(segs) == 0 && LiveOf(ck) == map[] && topsize == 0
    ensures topsize >= 0
  {
    hide Loose, LayoutOk, Regions, Shape, SegList, SegTotal;
    LooseParts(m, smallmap, treemap, b, ck, segs, least);
    if segs != [] {
      ChunkIn(ck, top);
    } else {
      NothingYet(b.sz, ck, dv, dvsize, top, topsize);
      assert SegTotal([]) == 0 by { NoTotal(); }
    }
  }

  lemma NoTotal()
    ensures SegTotal([]) == 0
  {
  }

  /** The segment that the region follows is the one with the top exactly if it comes first in the list. */
  lemma ExtendReads(m: Mem, smallmap: bv32, treemap: bv32, b: Bins, ck: Layout.Chunks, segs: seq<Segment>, least: int,
                    dv: int, dvsize: int, top: int, topsize: int, k: nat)
    requires Loose(m, smallmap, treemap, b, ck, segs, least) && Settled(b.sz, ck, segs, dv, dvsize, top, topsize) &&
      segs != [] && k <= |segs|
    ensures k < |segs| ==> Rd(m, segs[k].rec + SEG_FLAGS) == USE_MMAP_BIT
    ensures k < |segs| ==>
      (top >= Rd(m, segs[k].rec) && top < Rd(m, segs[k].rec) + Rd(m, segs[k].rec + SEG_SIZE) <==> k == 0)
    ensures topsize > 0
  {
    hide Loose, LayoutOk, SegList, Settled;
    Listed(m, smallmap, treemap, b, ck, segs, least);
    SettledTop(b.sz, ck, segs, dv, dvsize, top, topsize);
    TopEnd(ck, segs, top);
    if k < |segs| {
      ListWords(m, segs, k);
      OneHolder(ck, segs, top, k, 0);
    }
  }

  /** The blocks were as before when the request was granted. */
  lemma GrantedLate(l: Mem, ck: Layout.Chunks, m: Mem, c: Layout.Chunks, n: Mem, d: Layout.Chunks, r: int, nb: int)
    requires LiveOf(c) == LiveOf(ck) && BlocksKept(l, m, LiveOf(ck)) && Granted(m, c, n, d, r, nb)
    ensures Granted(l, ck, n, d, r, nb) && r > 0
  {
    hide LiveOf, BlocksKept;
    BlocksTwice(l, m, n, LiveOf(ck));
  }

  lemma OneTotal(segs: seq<Segment>, size: int)
    requires |segs| == 1 && segs[0].size == size
    ensures SegTotal(segs) == size
  {
    assert segs[1..] == [];
  }

  lemma NoBlocks(l: Mem, m: Mem)
    ensures BlocksKept(l, m, map[])
  {
  }

  // ----- Giving segments back

  /** What release_unused_segments reads of the older segment `k`. */
  ghost predicate SegmentRead(m: Mem, ck: Layout.Chunks, segs: seq<Segment>, k: nat, sz: map<int, int>, dv: int,
                              dvsize: int) {
    && 1 <= k < |segs|
    && var s := segs[k];
      && Rd(m, s.rec) == s.base && Rd(m, s.rec + SEG_SIZE) == s.size && Rd(m, s.rec + SEG_NEXT) == NextRecord(segs, k)
      && Rd(m, s.rec + SEG_FLAGS) == USE_MMAP_BIT && s.base % 16 == 0 && s.base in ck && ck[s.base].prev == 0
      && (IsInUse(Rd(m, s.base + HEAD)) <==> ck[s.base].kind != Layout.Free)
      && (ck[s.base].kind == Layout.Free ==> ChunkSize(Rd(m, s.base + HEAD)) == ck[s.base].size)
      && (ck[s.base].kind == Layout.Free && s.base != dv ==> s.base in sz && sz[s.base] == ck[s.base].size)
      && (ck[s.base].kind == Layout.Free && s.base == dv ==> s.base !in sz)
      && s.size >= 4096 && s.base > 0
  }

  lemma ReadSegment(m: Mem, smallmap: bv32, treemap: bv32, b: Bins, ck: Layout.Chunks, segs: seq<Segment>, least: int,
                    k: nat,
                    dv: int, dvsize: int, top: int, topsize: int)
    requires Loose(m, smallmap, treemap, b, ck, segs, least) && Settled(b.sz, ck, segs, dv, dvsize, top, topsize) &&
      1 <= k < |segs|
    ensures SegmentRead(m, ck, segs, k, b.sz, dv, dvsize)
  {
    hide Loose, Held, LayoutOk, SegList, Regions, Settled, RegionOk;
    LooseHeld(m, smallmap, treemap, b, ck, segs, least);
    ListWords(m, segs, k);
    FirstKnown(m, smallmap, treemap, b, ck, segs, least, k, b.sz, dv, dvsize, top, topsize);
    NotTopBase(ck, segs, k);
    RegionSize(segs, k);
  }

  lemma NotTopBase(ck: Layout.Chunks, segs: seq<Segment>, k: nat)
    requires LayoutOk(ck, segs) && 1 <= k < |segs|
    ensures segs[k].base in ck && ck[segs[k].base].kind != Layout.Top
  {
    hide LayoutOk, Shape, Seats, Records, SegmentsApart;
    LayoutParts(ck, segs);
    BasedAt(ck, segs, k);
    if ck[segs[k].base].kind == Layout.Top {
      TopSeat(ck, segs, segs[k].base);
      LayoutApart(ck, segs);
      OkShape(ck, segs);
      SizePositive(ck, segs[k].base);
      OneSegment(segs, segs[k].base, 0, k);
    }
  }

  lemma RegionSize(segs: seq<Segment>, k: nat)
    requires Regions(segs) && k < |segs|
    ensures segs[k].size >= 4096 && segs[k].base % 16 == 0 && segs[k].base > 0
  {
    assert RegionOk(segs[k].base, segs[k].size);
    Granularity();
    Multiple16(segs[k].base, Pow2(GRANULARITY_BITS));
    AtLeastOne(segs[k].size, Pow2(GRANULARITY_BITS));
  }

  lemma AtLeastOne(x: int, g: int)
    requires g > 0 && x > 0 && x % g == 0
    ensures x >= g
  {
  }

  /** The segment that was given back is gone, and its free chunk with it. */
  lemma ReleasedSettled(z0: map<int, int>, sz: map<int, int>, ck: Layout.Chunks, segs: seq<Segment>, k: nat, dv: int,
                        dvsize: int, top: int, topsize: int,
                        dv': int, dvsize': int)
    requires Settled(z0, ck, segs, dv, dvsize, top, topsize) && LayoutOk(ck, segs) && Unused(ck, segs, k)
    requires var p, d := segs[k].base, Drop(ck, segs[k].base, segs[k].base + segs[k].size);
      && Coalesced(d) && FreeOf(d) == FreeOf(ck) - {p} && sz == z0 - {p} && p != 0
      && (if p == dv then dv' == 0 && dvsize' == 0 else dv' == dv && dvsize' == dvsize)
    ensures Settled(sz, Drop(ck, segs[k].base, segs[k].base + segs[k].size), WithoutSegment(segs, k), dv', dvsize', top,
                    topsize)
  {
    hide LayoutOk, Coalesced, Unused, FreeOf;
    UnusedIndex(ck, segs, k);
    RemovedAt(segs, k, 0);
    var p, d := segs[k].base, Drop(ck, segs[k].base, segs[k].base + segs[k].size);
    KeptTop(ck, segs, k, top);
    if dv != 0 && dv != p { KeptDv(ck, segs, k, dv); }
    assert 0 !in FreeOf(ck) by { OkShape(ck, segs); NoNull(ck); }
  }

  lemma UnusedIndex(ck: Layout.Chunks, segs: seq<Segment>, k: nat)
    requires Unused(ck, segs, k)
    ensures 1 <= k < |segs|
  {
  }

  lemma NoNull(ck: Layout.Chunks)
    requires Shape(ck)
    ensures 0 !in FreeOf(ck)
  {
    hide Shape;
    if 0 in ck { ChunkIn(ck, 0); }
  }

  lemma KeptTop(ck: Layout.Chunks, segs: seq<Segment>, k: nat, top: int)
    requires LayoutOk(ck, segs) && Coalesced(ck) && Unused(ck, segs, k) && top in ck && ck[top].kind == Layout.Top
    ensures top in Drop(ck, segs[k].base, segs[k].base + segs[k].size)
  {
    hide LayoutOk, Coalesced;
    if segs[k].base <= top < segs[k].base + segs[k].size { OnlyThree(ck, segs, k, top); }
  }

  lemma KeptDv(ck: Layout.Chunks, segs: seq<Segment>, k: nat, dv: int)
    requires LayoutOk(ck, segs) && Coalesced(ck) && Unused(ck, segs, k) && dv in ck && ck[dv].kind == Layout.Free
    requires dv != segs[k].base
    ensures dv in Drop(ck, segs[k].base, segs[k].base + segs[k].size)
  {
    hide LayoutOk, Coalesced;
    if segs[k].base <= dv < segs[k].base + segs[k].size { OnlyThree(ck, segs, k, dv); }
  }

  /** The system did not take the segment back: its free chunk is binned again. */
  lemma BackOutSettled(z0: map<int, int>, sz: map<int, int>, ck: Layout.Chunks, segs: seq<Segment>, p: int, s: int,
                       dv: int, dvsize: int, top: int, topsize: int,
                       dv': int, dvsize': int)
    requires Settled(z0, ck, segs, dv, dvsize, top, topsize) && Shape(ck) && p in ck
    requires ck[p] == Layout.Chunk(s, Layout.Free, 0)
    requires sz == (z0 - {p})[p := s] && (if p == dv then dv' == 0 && dvsize' == 0 else dv' == dv && dvsize' == dvsize)
    ensures Settled(sz, ck, segs, dv', dvsize', top, topsize)
  {
    hide Coalesced, Shape;
    NoNull(ck);
  }

  lemma SameBlocks(m: Mem, ck: Layout.Chunks)
    ensures BlocksKept(m, m, LiveOf(ck)) && PayloadsKept(m, m, ck)
  {
  }

  lemma TreeMember(m: Mem, smallmap: bv32, treemap: bv32, b: Bins, ck: Layout.Chunks, segs: seq<Segment>, least: int,
                   p: int)
    requires Loose(m, smallmap, treemap, b, ck, segs, least) && p in b.sz && b.sz[p] >= 256
    ensures p in b.trie.loc
  {
    hide Loose, Held, LayoutOk;
    LooseBins(m, smallmap, treemap, b, ck, segs, least);
    Unlinkable(m, smallmap, treemap, b, ck, least, p);
  }

  lemma KeptAfter(l: Mem, m: Mem, ck: Layout.Chunks)
    requires m == l || PayloadsKept(l, m, ck)
    ensures BlocksKept(l, m, LiveOf(ck)) && PayloadsKept(l, m, ck)
  {
    hide LiveOf;
    LiveInLive(ck);
    if m == l {
      SameBlocks(l, ck);
    } else {
      KeptBlocks(l, m, ck, LiveOf(ck));
    }
  }

  /** Both ends of a turn of release_unused_segments; `m` is memory once the free chunk has left the bins. */
  lemma ReleaseDone(l: Mem, m: Mem, smallmap: bv32, treemap: bv32, b: Bins, ck: Layout.Chunks, segs: seq<Segment>,
                    least: int, k: nat,
                    z0: map<int, int>, dv: int, dvsize: int, top: int, topsize: int, dv': int, dvsize': int)
    requires Loose(m, smallmap, treemap, b, ck, segs, least) && Settled(z0, ck, segs, dv, dvsize, top, topsize)
    requires Unused(ck, segs, k)
    requires var p := segs[k].base;
      b.sz == z0 - {p} && p != 0 && (if p == dv then dv' == 0 && dvsize' == 0 else dv' == dv && dvsize' == dvsize)
    requires m == l || PayloadsKept(l, m, ck)
    ensures 1 <= k < |segs|
    ensures var n, d := m[segs[k - 1].rec + SEG_NEXT := NextRecord(segs, k)], Drop(ck, segs[k].base, segs[k].base + segs[k].size);
      && Loose(n, smallmap, treemap, b, d, WithoutSegment(segs, k), least)
      && Settled(b.sz, d, WithoutSegment(segs, k), dv', dvsize', top, topsize)
      && LiveOf(d) == LiveOf(ck) && BlocksKept(l, n, LiveOf(ck))
      && SegTotal(WithoutSegment(segs, k)) == SegTotal(segs) - segs[k].size
  {
    hide Loose, LayoutOk, DvOk, TopOk, Coalesced, LiveOf, FreeOf, BlocksKept, SegTotal, Drop, WithoutSegment,
         PayloadsKept;
    LooseParts(m, smallmap, treemap, b, ck, segs, least);
    Released(m, smallmap, treemap, b, ck, segs, least, k);
    ReleasedSettled(z0, b.sz, ck, segs, k, dv, dvsize, top, topsize, dv', dvsize');
    TotalRemoved(segs, k);
    KeptAfter(l, m, ck);
    BlocksTwice(l, m, m[segs[k - 1].rec + SEG_NEXT := NextRecord(segs, k)], LiveOf(ck));
  }

  lemma BackOutDone(l: Mem, m: Mem, n: Mem, smallmap: bv32, treemap: bv32, b: Bins, ck: Layout.Chunks,
                    segs: seq<Segment>, least: int, p: int, s: int,
                    z0: map<int, int>, dv: int, dvsize: int, top: int, topsize: int, dv': int, dvsize': int)
    requires Loose(n, smallmap, treemap, b, ck, segs, least) && Settled(z0, ck, segs, dv, dvsize, top, topsize)
    requires p in ck && ck[p] == Layout.Chunk(s, Layout.Free, 0) && b.sz == (z0 - {p})[p := s]
    requires if p == dv then dv' == 0 && dvsize' == 0 else dv' == dv && dvsize' == dvsize
    requires (m == l || PayloadsKept(l, m, ck)) && PayloadsKept(m, n, ck)
    ensures Settled(b.sz, ck, segs, dv', dvsize', top, topsize) && BlocksKept(l, n, LiveOf(ck))
  {
    hide Loose, Settled, LiveOf, BlocksKept, PayloadsKept;
    LooseParts(n, smallmap, treemap, b, ck, segs, least);
    BackOutSettled(z0, b.sz, ck, segs, p, s, dv, dvsize, top, topsize, dv', dvsize');
    KeptAfter(l, m, ck);
    NewBlocks(l, m, n, ck, ck);
  }

  // ----- Trimming

  /** How much sys_trim takes off a top of which at least `pad` bytes are to stay: whole units, keeping at least one. */
  function TrimExtra(topsize: int, pad: int): int {
    var unit := Pow2(GRANULARITY_BITS);
    ((topsize - pad + (unit - 1)) / unit - 1) * unit
  }

  /** `e` bytes are whole units, and without them more than `pad` bytes are left, but not by more than a unit. */
  ghost predicate Spare(topsize: int, pad: int, e: int) {
    e >= 0 && e % Pow2(GRANULARITY_BITS) == 0 && 0 < topsize - pad - e <= Pow2(GRANULARITY_BITS)
  }

  /** There is only one such number. */
  lemma SpareOnce(topsize: int, pad: int, e: int, f: int)
    requires Spare(topsize, pad, e) && Spare(topsize, pad, f)
    ensures e == f
  {
    hide Pow2;
    var g := Pow2(GRANULARITY_BITS);
    SmallMultiple(e, f, g);
    SmallMultiple(f, e, g);
  }

  lemma SmallMultiple(e: int, f: int, g: int)
    requires g > 0 && e % g == 0 && f % g == 0 && e - f < g
    ensures e <= f
  {
    var i, j := e / g, f / g;
    assert e == g * i && f == g * j;
    if i > j {
      MulLess(g, j + 1, i);
    }
  }

  lemma MulLess(g: int, i: int, j: int)
    requires g > 0 && i <= j
    ensures g * i <= g * j
  {
  }

  /** What sys_trim leaves of the top: it goes down to within a unit of `pad`, unless the system does not take the end of
      the newest segment back. */
  ghost predicate TopLeft(segs: seq<Segment>, topsize: int, pad: int, unmaps: int -> bool, left: int) {
    if topsize > pad && segs != [] then
      exists e: int ::
        Spare(topsize, pad, e) && left == topsize - if unmaps(segs[0].base + (segs[0].size - e)) then e else 0
    else left == topsize
  }

  lemma ExtraBound(x: int, g: int)
    requires x > 0 && g > 0
    ensures var e := ((x + (g - 1)) / g - 1) * g; 0 <= e < x <= e + g && e % g == 0
  {
    var q, r := (x + (g - 1)) / g, (x + (g - 1)) % g;
    assert x + (g - 1) == g * q + r;
    if q <= 0 {
      NotPositive(g, q);
    }
    Swap(q - 1, g);
    ModOf(q - 1, g);
    assert g * (q - 1) == g * q - g;
  }

  lemma NotPositive(g: int, q: int)
    requires g > 0 && q <= 0
    ensures g * q <= 0
  {
  }

  lemma Swap(a: int, b: int)
    ensures a * b == b * a
  {
  }

  /** Shortening the newest segment. */
  lemma TrimReady(ck: Layout.Chunks, segs: seq<Segment>, top: int, extra: int)
    requires LayoutOk(ck, segs) && Regions(segs) && top in ck && ck[top].kind == Layout.Top
    requires 0 <= extra < ck[top].size && extra % Pow2(GRANULARITY_BITS) == 0
    ensures var s := ck[top].size - extra;
      && CanRetop(ck, segs, top, s) && Regions(Retopped(segs, top, s)) && segs != []
      && Retopped(segs, top, s) == segs[0 := Segment(segs[0].base, segs[0].size - extra, segs[0].rec)]
      && segs[0].size >= extra
  {
    hide LayoutOk, Shape, RegionOk, OutsideOthers, ClearOfState;
    var s := ck[top].size - extra;
    TopEnd(ck, segs, top);
    TrimSize(ck[top].size, extra);
    TrimOthers(ck, segs, segs[0].base, segs[0].size, extra);
    TrimClear(ck, segs, top, extra);
    TrimRegion(segs, extra);
  }

  lemma TrimSize(size: int, extra: int)
    requires size % 16 == 0 && extra % Pow2(GRANULARITY_BITS) == 0
    ensures (size - extra) % 16 == 0
  {
    hide Pow2;
    Granularity();
    Multiple16(extra, Pow2(GRANULARITY_BITS));
    Less16(size, extra);
  }

  lemma Less16(a: int, b: int)
    requires a % 16 == 0 && b % 16 == 0
    ensures (a - b) % 16 == 0
  {
  }

  lemma TrimOthers(ck: Layout.Chunks, segs: seq<Segment>, base: int, size: int, extra: int)
    requires LayoutOk(ck, segs) && segs != [] && base == segs[0].base && size == segs[0].size && extra >= 0
    ensures OutsideOthers(segs, 0, base, size - extra)
  {
    hide Shape, Records, InSegs, Based;
  }

  lemma TrimClear(ck: Layout.Chunks, segs: seq<Segment>, top: int, extra: int)
    requires LayoutOk(ck, segs) && top in ck && ck[top].kind == Layout.Top && 0 <= extra < ck[top].size
    ensures ClearOfState(top, ck[top].size - extra + TOP_FOOT_SIZE)
  {
    hide LayoutOk, Shape;
    TopEnd(ck, segs, top);
    OkShape(ck, segs);
    ChunkIn(ck, top);
    ChunkIn(ck, top + ck[top].size);
  }

  lemma TrimRegion(segs: seq<Segment>, extra: int)
    requires Regions(segs) && segs != [] && 0 <= extra < segs[0].size && extra % Pow2(GRANULARITY_BITS) == 0
    ensures RegionOk(segs[0].base, segs[0].size - extra)
  {
    assert RegionOk(segs[0].base, segs[0].size);
    SubMod(segs[0].size, extra, Pow2(GRANULARITY_BITS));
  }

  lemma SubMod(a: int, b: int, m: int)
    requires m > 0 && a % m == 0 && b % m == 0
    ensures (a - b) % m == 0
  {
    var i, j := a / m, b / m;
    assert a - b == m * (i - j);
    ModOf(i - j, m);
  }

  /** No record lies in the newest segment, so that it may always be shortened. */
  lemma NotPinned(ck: Layout.Chunks, segs: seq<Segment>, i: nat)
    requires LayoutOk(ck, segs) && Regions(segs) && i < |segs|
    ensures !Holds(segs[0], segs[i].rec)
  {
    hide Shape, SegmentsApart, InSegs, HasSegment;
    if i == 0 {
      LayoutParts(ck, segs);
      FirstRecord(ck, segs);
      assert RegionOk(segs[0].base, segs[0].size);
    } else {
      RecordEnd(ck, segs, i);
    }
  }

  lemma RecordEnd(ck: Layout.Chunks, segs: seq<Segment>, i: nat)
    requires LayoutOk(ck, segs) && 1 <= i < |segs|
    ensures !Holds(segs[0], segs[i].rec)
  {
    hide Shape, InSegs, HasSegment, Based;
    assert Recorded(ck, segs[i]);
    if Holds(segs[0], segs[i].rec) {
      OneSegment(segs, segs[i].rec, 0, i);
    }
  }

  /** Shortening the newest segment by `extra` bytes. */
  lemma TrimStep(m: Mem, smallmap: bv32, treemap: bv32, b: Bins, ck: Layout.Chunks, segs: seq<Segment>, least: int,
                 dv: int, dvsize: int, top: int, topsize: int, extra: int)
    requires Loose(m, smallmap, treemap, b, ck, segs, least) && Settled(b.sz, ck, segs, dv, dvsize, top, topsize)
    requires segs != []
    requires 0 <= extra < topsize && extra % Pow2(GRANULARITY_BITS) == 0
    ensures top in ck && top % 16 == 0 && Rd(m, SEG + SEG_SIZE) == segs[0].size && segs[0].size >= extra
    ensures var s := topsize - extra;
      var n := m[SEG + SEG_SIZE := segs[0].size - extra][top + HEAD := s + PINUSE_BIT][top + s + HEAD := TOP_FOOT_SIZE];
      var d, segs' := ResizeTop(ck, top, s), segs[0 := Segment(segs[0].base, segs[0].size - extra, segs[0].rec)];
      && Loose(n, smallmap, treemap, b, d, segs', least) && Settled(b.sz, d, segs', dv, dvsize, top, s)
      && LiveOf(d) == LiveOf(ck) && BlocksKept(m, n, LiveOf(ck)) && SegTotal(segs') == SegTotal(segs) - extra
  {
    hide Loose, LayoutOk, SegList, RegionOk, Coalesced, LiveOf, FreeOf, CanRetop, BlocksKept, DvOk, Retopped,
         ResizeTop, SegTotal;
    Listed(m, smallmap, treemap, b, ck, segs, least);
    ListWords(m, segs, 0);
    assert Regions(segs) && Shape(ck) by { LooseParts(m, smallmap, treemap, b, ck, segs, least); }
    ChunkIn(ck, top);
    TrimReady(ck, segs, top, extra);
    var s := topsize - extra;
    Retop(m, smallmap, treemap, b, ck, segs, least, top, s);
    RetopSettled(b.sz, ck, segs, Retopped(segs, top, s), dv, dvsize, top, topsize, s);
    TotalUpdate(segs, 0, Segment(segs[0].base, segs[0].size - extra, segs[0].rec));
  }

  lemma NoLinks(m: Mem, smallmap: bv32, treemap: bv32, b: Bins, ck: Layout.Chunks, segs: seq<Segment>, least: int,
                dv: int, dvsize: int, top: int, topsize: int)
    requires Loose(m, smallmap, treemap, b, ck, segs, least) && Settled(b.sz, ck, segs, dv, dvsize, top, topsize)
    requires segs != []
    ensures forall i | 0 <= i < |segs| :: !Holds(segs[0], segs[i].rec)
    ensures Holds(segs[0], top) && segs[0].rec == SEG && Rd(m, SEG) == segs[0].base
    ensures Rd(m, SEG + SEG_FLAGS) == USE_MMAP_BIT && Rd(m, SEG + SEG_SIZE) == segs[0].size >= topsize
  {
    hide Loose, LayoutOk, SegList, Settled, Regions;
    Listed(m, smallmap, treemap, b, ck, segs, least);
    ListWords(m, segs, 0);
    assert Regions(segs) by { LooseParts(m, smallmap, treemap, b, ck, segs, least); }
    SettledTop(b.sz, ck, segs, dv, dvsize, top, topsize);
    TopEnd(ck, segs, top);
    forall i | 0 <= i < |segs| ensures !Holds(segs[0], segs[i].rec) { NotPinned(ck, segs, i); }
  }

  /** Segment `k` of `segs` and the chunks in it are gone; the rest is as it was. */
  ghost predicate SegmentGone(ck: Layout.Chunks, segs: seq<Segment>, d: Layout.Chunks, rest: seq<Segment>, k: nat) {
    && k < |segs| && d == Drop(ck, segs[k].base, segs[k].base + segs[k].size) && rest == WithoutSegment(segs, k)
  }

  /** None of the first `n` segments but the newest is unused, unless the system would not take it back. */
  ghost predicate Swept(ck: Layout.Chunks, segs: seq<Segment>, unmaps: int -> bool, n: nat) {
    forall i :: 1 <= i < n && i < |segs| && Unused(ck, segs, i) ==> !unmaps(segs[i].base)
  }

  lemma NothingSwept(ck: Layout.Chunks, segs: seq<Segment>, unmaps: int -> bool)
    ensures Swept(ck, segs, unmaps, 1)
  {
  }

  lemma SweptOn(ck: Layout.Chunks, segs: seq<Segment>, unmaps: int -> bool, k: nat)
    requires Swept(ck, segs, unmaps, k) && k < |segs| && !(unmaps(segs[k].base) && Unused(ck, segs, k))
    ensures Swept(ck, segs, unmaps, k + 1)
  {
    hide Unused;
  }

  lemma AfterRemoval(ck: Layout.Chunks, segs: seq<Segment>, d: Layout.Chunks, t: seq<Segment>, unmaps: int -> bool,
                     k: nat)
    requires 1 <= k < |segs| && SegmentGone(ck, segs, d, t, k) && Swept(ck, segs, unmaps, k)
    ensures |t| == |segs| - 1 && t[0] == segs[0] && t[k - 1] == segs[k - 1]
    ensures NextRecord(t, k - 1) == NextRecord(segs, k) && Swept(d, t, unmaps, k)
  {
    RemovedAt(segs, k, 0);
    RemovedAt(segs, k, k - 1);
    if k < |segs| - 1 { RemovedAt(segs, k, k); }
    forall i | 1 <= i < k && i < |t| && Unused(d, t, i)
      ensures !unmaps(t[i].base)
    {
      RemovedAt(segs, k, i);
      assert Unused(ck, segs, i);
    }
  }

  lemma TrimBound(topsize: int, pad: int)
    requires topsize > pad >= 0
    ensures Spare(topsize, pad, TrimExtra(topsize, pad))
  {
    ExtraBound(topsize - pad, Pow2(GRANULARITY_BITS));
  }

  /** Following the list from the record of segment `k - 1`. */
  lemma NextInList(m: Mem, smallmap: bv32, treemap: bv32, b: Bins, ck: Layout.Chunks, segs: seq<Segment>, least: int,
                   k: nat)
    requires Loose(m, smallmap, treemap, b, ck, segs, least) && 1 <= k <= |segs|
    ensures var sp := NextRecord(segs, k - 1);
      && (sp != 0 <==> k < |segs|)
      && (k < |segs| ==> sp == segs[k].rec && Rd(m, sp) == segs[k].base && Rd(m, sp + SEG_NEXT) == NextRecord(segs, k))
    ensures segs[0].rec == SEG && Rd(m, SEG + SEG_NEXT) == NextRecord(segs, 0)
  {
    hide Loose, LayoutOk, SegList;
    Listed(m, smallmap, treemap, b, ck, segs, least);
    ListWords(m, segs, 0);
    if k < |segs| { ListWords(m, segs, k); }
  }
}
