/** What the heap keeps between, and inside, its operations. */
module Invariant {
  import opened Memory
  import opened Bits
  import opened Tries
  import opened Bins
  import opened SmallBins
  import opened BinSteps
  import opened Layout
  import opened Segments
  import opened Tags
  import opened Moves

  // ----- The segment list in memory

  type GranularityBits = n: nat | 12 <= n < 63 witness 12

  /** The unit in which the system hands out memory, a power of two. */
  const GRANULARITY_BITS: GranularityBits

  ghost function NextRecord(segs: seq<Segment>, i: nat): int {
    if i + 1 < |segs| then segs[i + 1].rec else 0
  }

  ghost predicate RecordWords(m: Mem, segs: seq<Segment>, i: nat)
    requires i < |segs|
  {
    var r := segs[i].rec;
    && Rd(m, r) == segs[i].base && Rd(m, r + SEG_SIZE) == segs[i].size
    && Rd(m, r + SEG_NEXT) == NextRecord(segs, i) && Rd(m, r + SEG_FLAGS) == USE_MMAP_BIT
  }

  /** The list of malloc_segment records that starts in the malloc_state. */
  ghost predicate SegList(m: Mem, segs: seq<Segment>) {
    && (segs == [] ==> Rd(m, SEG + SEG_NEXT) == 0)
    && (forall i | 0 <= i < |segs| :: RecordWords(m, segs, i))
  }

  /** What the system guarantees about the regions it hands out. */
  ghost predicate RegionOk(base: int, size: int) {
    && base > 0 && size > 0 && base + size <= W64 && ClearOfState(base, size)
    && base % Pow2(GRANULARITY_BITS) == 0 && size % Pow2(GRANULARITY_BITS) == 0
  }

  ghost predicate Regions(segs: seq<Segment>) {
    forall i | 0 <= i < |segs| :: RegionOk(segs[i].base, segs[i].size)
  }

  ghost predicate AboveLeast(ck: Chunks, least: int) {
    forall a | a in ck :: a >= least
  }

  // ----- Inside an operation

  /** Everything but what ties the bins, the designated victim and the top to the free chunks. */
  ghost predicate Loose(m: Mem, smallmap: bv32, treemap: bv32, b: Bins, ck: Chunks, segs: seq<Segment>, least: int) {
    && LayoutOk(ck, segs) && Tagged(m, ck) && SegList(m, segs) && Regions(segs) && AboveLeast(ck, least)
    && BinsReady(m, smallmap, treemap, b, least) && FreeIn(ck, b.sz)
  }

  lemma SegListFrame(m: Mem, n: Mem, segs: seq<Segment>)
    requires SegList(m, segs) && (segs != [] ==> segs[0].rec == SEG)
    requires forall w | SEG <= w < SEG + 32 :: Rd(n, w) == Rd(m, w)
    requires forall i, w | 1 <= i < |segs| && segs[i].rec <= w < segs[i].rec + 32 :: Rd(n, w) == Rd(m, w)
    ensures SegList(n, segs)
  {
    forall i | 0 <= i < |segs| ensures RecordWords(n, segs, i) {
      assert RecordWords(m, segs, i);
    }
  }

  lemma RecordPayload(ck: Chunks, segs: seq<Segment>, i: nat, w: int)
    requires Records(ck, segs) && 1 <= i < |segs| && segs[i].rec <= w < segs[i].rec + 32
    ensures var a := segs[i].rec - 16; a in ck && ck[a].kind == Record && PayloadWord(a, ck[a], w)
  {
    assert Recorded(ck, segs[i]);
  }

  /** The list survives whatever leaves the payloads and the malloc_state's own record alone. */
  lemma SegListKept(m: Mem, n: Mem, ck: Chunks, segs: seq<Segment>)
    requires SegList(m, segs) && Records(ck, segs) && PayloadsKept(m, n, ck)
    requires forall w | SEG <= w < SEG + 32 :: Rd(n, w) == Rd(m, w)
    ensures SegList(n, segs)
  {
    hide Records, SegList, PayloadWord;
    forall i, w | 1 <= i < |segs| && segs[i].rec <= w < segs[i].rec + 32 ensures Rd(n, w) == Rd(m, w) {
      RecordPayload(ck, segs, i, w);
    }
    assert segs != [] ==> segs[0].rec == SEG by { FirstRecord(ck, segs); }
    SegListFrame(m, n, segs);
  }

  lemma FirstRecord(ck: Chunks, segs: seq<Segment>)
    requires Records(ck, segs)
    ensures segs != [] ==> segs[0].rec == SEG
  {
  }

  lemma LooseParts(m: Mem, smallmap: bv32, treemap: bv32, b: Bins, ck: Chunks, segs: seq<Segment>, least: int)
    requires Loose(m, smallmap, treemap, b, ck, segs, least)
    ensures LayoutOk(ck, segs) && Shape(ck) && Records(ck, segs) && Tagged(m, ck) && SegList(m, segs) && Regions(segs)
    ensures AboveLeast(ck, least)
    ensures BinsReady(m, smallmap, treemap, b, least) && FreeIn(ck, b.sz)
  {
    hide Shape, Seats, Records, Tagged, SegList, Regions, AboveLeast, BinsReady, FreeIn;
  }

  // ----- The heap without its segment list

  ghost predicate Held(m: Mem, smallmap: bv32, treemap: bv32, b: Bins, ck: Chunks, least: int) {
    Shape(ck) && Tagged(m, ck) && AboveLeast(ck, least) && BinsReady(m, smallmap, treemap, b, least) && FreeIn(ck, b.sz)
  }

  lemma LooseHeld(m: Mem, smallmap: bv32, treemap: bv32, b: Bins, ck: Chunks, segs: seq<Segment>, least: int)
    requires Loose(m, smallmap, treemap, b, ck, segs, least)
    ensures Held(m, smallmap, treemap, b, ck, least) && LayoutOk(ck, segs) && Records(ck, segs) && SegList(m, segs)
    ensures Regions(segs)
  {
    hide Shape, Records, SegList, Regions, BinsReady, Tagged, AboveLeast, FreeIn;
    LooseParts(m, smallmap, treemap, b, ck, segs, least);
  }

  lemma HeldLoose(m: Mem, smallmap: bv32, treemap: bv32, b: Bins, ck: Chunks, segs: seq<Segment>, least: int)
    requires Held(m, smallmap, treemap, b, ck, least) && LayoutOk(ck, segs) && SegList(m, segs) && Regions(segs)
    ensures Loose(m, smallmap, treemap, b, ck, segs, least)
  {
    hide Shape, LayoutOk, SegList, Regions, BinsReady, Tagged, AboveLeast, FreeIn;
  }

  lemma HeldTags(m: Mem, n: Mem, smallmap: bv32, treemap: bv32, b: Bins, ck: Chunks, d: Chunks, least: int)
    requires Held(m, smallmap, treemap, b, ck, least)
    requires Shape(d) && Tagged(n, d) && OnlyTags(m, n, d) && FreeIn(d, b.sz) && AboveLeast(d, least)
    ensures Held(n, smallmap, treemap, b, d, least) && PayloadsKept(m, n, d)
  {
    hide Shape, BinsReady, Tagged, AboveLeast, FreeIn, OnlyTags, PayloadsKept;
    TagsPayloads(m, n, d);
    BinsQuiet(m, n, smallmap, treemap, b, d, least);
  }

  lemma HeldQuiet(m: Mem, n: Mem, smallmap: bv32, treemap: bv32, b: Bins, ck: Chunks, d: Chunks, least: int)
    requires Held(m, smallmap, treemap, b, ck, least)
    requires Shape(d) && Tagged(n, d) && Quiet(m, n, b.sz) && FreeIn(d, b.sz) && AboveLeast(d, least)
    ensures Held(n, smallmap, treemap, b, d, least)
  {
    hide Shape, Tagged, AboveLeast, FreeIn, Quiet, BinsOk, SizeTags, AllAbove;
    QuietKeeps(m, n, smallmap, treemap, b);
    SizesTagged(n, d, b.sz);
  }

  // ----- Writing a word of a segment record

  /** A word that no tag, no bin and no block uses. */
  ghost predicate Idle(ck: Chunks, w: int) {
    && !BinArea(w) && !TagWord(ck, w)
    && (forall x | x in ck && ck[x].kind == Free :: !(x + 16 <= w < x + ck[x].size))
    && (forall x | x in ck && ck[x].kind == Live :: !PayloadWord(x, ck[x], w))
  }

  lemma IdleTags(m: Mem, n: Mem, ck: Chunks)
    requires Tagged(m, ck) && forall w | !Idle(ck, w) :: Rd(n, w) == Rd(m, w)
    ensures Tagged(n, ck) && BlocksKept(m, n, LiveOf(ck))
  {
    forall a | a in ck ensures TagOk(n, a, ck[a]) {
      assert TagOk(m, a, ck[a]);
      HeadIsTag(ck, a);
      assert !Idle(ck, a + HEAD);
      assert ck[a].prev > 0 ==> !Idle(ck, a);
    }
    forall a, w | a in LiveOf(ck) && a + 16 <= w < a + LiveOf(ck)[a] + 8 ensures Rd(n, w) == Rd(m, w) {
      assert PayloadWord(a, ck[a], w);
      assert !Idle(ck, w);
    }
  }

  lemma IdleQuiet(m: Mem, n: Mem, ck: Chunks, sz: map<int, int>)
    requires FreeIn(ck, sz) && forall w | !Idle(ck, w) :: Rd(n, w) == Rd(m, w)
    ensures Quiet(m, n, sz)
  {
    forall a | BinArea(a) ensures Rd(n, a) == Rd(m, a) { assert !Idle(ck, a); }
    forall x, a | x in sz && x + 16 <= a < x + sz[x] ensures Rd(n, a) == Rd(m, a) { assert !Idle(ck, a); }
  }

  lemma HeldIdle(m: Mem, n: Mem, smallmap: bv32, treemap: bv32, b: Bins, ck: Chunks, least: int)
    requires Held(m, smallmap, treemap, b, ck, least) && forall w | !Idle(ck, w) :: Rd(n, w) == Rd(m, w)
    ensures Held(n, smallmap, treemap, b, ck, least) && BlocksKept(m, n, LiveOf(ck))
  {
    hide Shape, Tagged, AboveLeast, FreeIn, Quiet, Idle, BinsReady, BlocksKept;
    IdleTags(m, n, ck);
    IdleQuiet(m, n, ck, b.sz);
    HeldQuiet(m, n, smallmap, treemap, b, ck, ck, least);
  }

  lemma StateIdle(ck: Chunks, w: int)
    requires Shape(ck) && SEG <= w < SEG + 32
    ensures Idle(ck, w)
  {
    hide Shape;
    forall x | x in ck ensures ClearOfState(x, ck[x].size) && ck[x].size > 0 { ChunkIn(ck, x); }
    forall x | x in ck && ck[x].kind == Live ensures !PayloadWord(x, ck[x], w) {
      NextIn(ck, x);
      ChunkIn(ck, x + ck[x].size);
    }
  }

  /** The words of a record are idle: they are payload, but of a chunk that belongs to no caller. */
  lemma PayloadIdle(ck: Chunks, a: int, w: int)
    requires Shape(ck) && a in ck && ck[a].kind == Record && PayloadWord(a, ck[a], w)
    ensures Idle(ck, w)
  {
    hide Shape;
    TagNotPayload(ck, a, w);
    ChunkIn(ck, a);
    NextIn(ck, a);
    ChunkIn(ck, a + ck[a].size);
    forall x | x in ck && ck[x].kind == Free
      ensures !(x + 16 <= w < x + ck[x].size)
    {
      Apart2(ck, a, x);
      ChunkIn(ck, x);
    }
    forall x | x in ck && ck[x].kind == Live ensures !PayloadWord(x, ck[x], w) {
      Apart2(ck, a, x);
      ChunkIn(ck, x);
      PayloadsApart(ck, a, x, w);
    }
  }

  lemma PayloadsApart(ck: Chunks, a: int, x: int, w: int)
    requires Shape(ck) && a in ck && ck[a].kind == Record && x in ck && ck[x].kind == Live && PayloadWord(a, ck[a], w)
    ensures !PayloadWord(x, ck[x], w)
  {
    hide Shape;
    Apart2(ck, a, x);
    ChunkIn(ck, a);
    ChunkIn(ck, x);
  }

  lemma RecordIdle(ck: Chunks, segs: seq<Segment>, i: nat, w: int)
    requires Shape(ck) && Records(ck, segs) && i < |segs| && segs[i].rec <= w < segs[i].rec + 32
    ensures Idle(ck, w)
  {
    hide Shape, Idle, PayloadWord, Records;
    if i == 0 {
      FirstRecord(ck, segs);
      StateIdle(ck, w);
    } else {
      RecordPayload(ck, segs, i, w);
      PayloadIdle(ck, segs[i].rec - 16, w);
    }
  }

  lemma HeldParts(m: Mem, smallmap: bv32, treemap: bv32, b: Bins, ck: Chunks, least: int)
    requires Held(m, smallmap, treemap, b, ck, least)
    ensures Shape(ck) && Tagged(m, ck) && AboveLeast(ck, least) && BinsReady(m, smallmap, treemap, b, least)
    ensures FreeIn(ck, b.sz)
  {
    hide Shape, BinsReady, Tagged, AboveLeast, FreeIn;
  }

  // ----- Bin operations inside an operation

  /** Words that nothing uses are the same in both memories. */
  ghost predicate IdleKept(m: Mem, n: Mem, ck: Chunks) {
    forall w {:trigger Rd(n, w)} :: Idle(ck, w) ==> Rd(n, w) == Rd(m, w)
  }

  lemma WithinIdle(m: Mem, n: Mem, ck: Chunks, sz: map<int, int>)
    requires FreeIn(ck, sz) && Within(m, n, sz)
    ensures IdleKept(m, n, ck)
  {
    hide TagWord, PayloadWord, BinArea;
    forall w | Idle(ck, w) ensures Rd(n, w) == Rd(m, w) {
      assert forall x :: !Interior(sz, x, w);
    }
  }

  lemma IdleList(m: Mem, n: Mem, ck: Chunks, segs: seq<Segment>)
    requires Shape(ck) && Records(ck, segs) && SegList(m, segs) && IdleKept(m, n, ck)
    ensures SegList(n, segs)
  {
    hide Shape, Records, SegList, Idle;
    forall i, w | 1 <= i < |segs| && segs[i].rec <= w < segs[i].rec + 32 ensures Rd(n, w) == Rd(m, w) {
      RecordIdle(ck, segs, i, w);
    }
    forall w | SEG <= w < SEG + 32 ensures Rd(n, w) == Rd(m, w) {
      StateIdle(ck, w);
    }
    FirstRecord(ck, segs);
    SegListFrame(m, n, segs);
  }

  /** A bin operation, whose writes stay within the binned chunks `sz`, spoils nothing else. */
  lemma BinStep(m: Mem, n: Mem, smallmap: bv32, treemap: bv32, b: Bins, smallmap': bv32, treemap': bv32, b': Bins,
                ck: Chunks, least: int, sz: map<int, int>)
    requires Held(m, smallmap, treemap, b, ck, least) && Within(m, n, sz) && FreeIn(ck, sz)
    requires BinsReady(n, smallmap', treemap', b', least) && FreeIn(ck, b'.sz)
    ensures Held(n, smallmap', treemap', b', ck, least) && PayloadsKept(m, n, ck) && IdleKept(m, n, ck)
  {
    hide Shape, Tagged, AboveLeast, BinsReady, FreeIn, Within, PayloadsKept, IdleKept;
    WithinTags(m, n, ck, sz);
    WithinPayloads(m, n, ck, sz);
    WithinIdle(m, n, ck, sz);
  }

  /** The segment list is still there after a bin operation. */
  lemma LooseAgain(m: Mem, n: Mem, smallmap: bv32, treemap: bv32, b: Bins, smallmap': bv32, treemap': bv32, b': Bins,
                   ck: Chunks, segs: seq<Segment>, least: int)
    requires Loose(m, smallmap, treemap, b, ck, segs, least)
    requires Held(n, smallmap', treemap', b', ck, least) && IdleKept(m, n, ck)
    ensures Loose(n, smallmap', treemap', b', ck, segs, least)
  {
    hide LayoutOk, Shape, Records, Tagged, SegList, Regions, AboveLeast, BinsReady, FreeIn, IdleKept;
    LooseParts(m, smallmap, treemap, b, ck, segs, least);
    IdleList(m, n, ck, segs);
  }

  // ----- Changes of layout inside an operation

  lemma StateWordsTags(m: Mem, n: Mem, ck: Chunks)
    requires Shape(ck) && OnlyTags(m, n, ck)
    ensures forall w | SEG <= w < SEG + 32 :: Rd(n, w) == Rd(m, w)
  {
    hide Shape;
    forall w | SEG <= w < SEG + 32 ensures Rd(n, w) == Rd(m, w) {
      if TagWord(ck, w) {
        ChunkIn(ck, if w - HEAD in ck then w - HEAD else w);
      }
    }
  }

  lemma SizesTagged(m: Mem, ck: Chunks, sz: map<int, int>)
    requires Shape(ck) && Tagged(m, ck) && FreeIn(ck, sz)
    ensures SizeTags(m, sz)
  {
    hide Shape, HeadWord;
    forall x | x in sz ensures ChunkSize(Rd(m, x + HEAD)) == sz[x] {
      ChunkIn(ck, x);
      assert TagOk(m, x, ck[x]);
      HeadBits(x, ck[x]);
    }
  }

  lemma BinsQuiet(m: Mem, n: Mem, smallmap: bv32, treemap: bv32, b: Bins, ck: Chunks, least: int)
    requires BinsReady(m, smallmap, treemap, b, least) && Shape(ck) && Tagged(n, ck) && FreeIn(ck, b.sz)
    requires OnlyTags(m, n, ck)
    ensures BinsReady(n, smallmap, treemap, b, least)
  {
    hide Shape, Tagged, FreeIn, OnlyTags, BinsOk, SizeTags, AllAbove, Quiet;
    TagsQuiet(m, n, ck, b.sz);
    QuietKeeps(m, n, smallmap, treemap, b);
    SizesTagged(n, ck, b.sz);
  }

  /** Writing the tags of a new layout `d` spoils nothing else. */
  lemma TagStep(m: Mem, n: Mem, smallmap: bv32, treemap: bv32, b: Bins, ck: Chunks, d: Chunks, segs: seq<Segment>,
                least: int)
    requires Loose(m, smallmap, treemap, b, ck, segs, least)
    requires LayoutOk(d, segs) && Tagged(n, d) && OnlyTags(m, n, d) && FreeIn(d, b.sz) && AboveLeast(d, least)
    ensures Loose(n, smallmap, treemap, b, d, segs, least) && PayloadsKept(m, n, d)
  {
    hide LayoutOk, Shape, Records, Tagged, SegList, Regions, AboveLeast, BinsReady, FreeIn, OnlyTags, PayloadsKept;
    LooseParts(m, smallmap, treemap, b, ck, segs, least);
    assert Shape(d) && Records(d, segs) by { LayoutParts(d, segs); }
    TagsPayloads(m, n, d);
    StateWordsTags(m, n, d);
    SegListKept(m, n, d, segs);
    BinsQuiet(m, n, smallmap, treemap, b, d, least);
  }

  lemma LayoutParts(ck: Chunks, segs: seq<Segment>)
    requires LayoutOk(ck, segs)
    ensures Shape(ck) && Records(ck, segs) && Seats(ck, segs)
  {
    hide Shape, Seats, Records;
  }

  // ----- What inserting a chunk needs

  lemma SizeBound(ck: Chunks, segs: seq<Segment>, a: int)
    requires LayoutOk(ck, segs) && Regions(segs) && a in ck
    ensures 0 < ck[a].size < W64 && 0 < a && a + ck[a].size <= W64
  {
    hide Shape, Records;
    LayoutParts(ck, segs);
    var i := SeatOf(ck, segs, a);
    SizePositive(ck, a);
    assert RegionOk(segs[i].base, segs[i].size);
  }

  lemma FreshFree(ck: Chunks, sz: map<int, int>, x: int)
    requires Shape(ck) && FreeIn(ck, sz) && x in ck && ck[x].kind == Free && x !in sz
    ensures Fresh(sz, x, ck[x].size)
  {
    hide Shape;
    ChunkIn(ck, x);
    forall y | y in sz ensures x + ck[x].size <= y || y + sz[y] <= x {
      Apart2(ck, x, y);
    }
  }

  /** A free chunk outside the bins can be inserted. */
  lemma Insertable(m: Mem, smallmap: bv32, treemap: bv32, b: Bins, ck: Chunks, segs: seq<Segment>, least: int, x: int)
    requires Loose(m, smallmap, treemap, b, ck, segs, least) && x in ck && ck[x].kind == Free && x !in b.sz
    ensures var s := ck[x].size;
      && Fresh(b.sz, x, s) && x >= least && ChunkSize(Rd(m, x + HEAD)) == s
      && (if s < 256 then SmallSize(s) else LargeSize(s))
    ensures FreeIn(ck, b.sz[x := ck[x].size]) && BinsReady(m, smallmap, treemap, b, least)
  {
    hide LayoutOk, Shape, Records, SegList, Regions, BinsReady, HeadWord;
    LooseParts(m, smallmap, treemap, b, ck, segs, least);
    FreshFree(ck, b.sz, x);
    SizeBound(ck, segs, x);
    ChunkIn(ck, x);
    assert TagOk(m, x, ck[x]);
    HeadBits(x, ck[x]);
  }

  /** A binned chunk can be unlinked. */
  lemma Unlinkable(m: Mem, smallmap: bv32, treemap: bv32, b: Bins, ck: Chunks, least: int, x: int)
    requires Held(m, smallmap, treemap, b, ck, least) && x in b.sz
    ensures BinsReady(m, smallmap, treemap, b, least) && FreeIn(ck, b.sz) && FreeIn(ck, b.sz - {x})
    ensures b.sz[x] >= 256 ==> x in b.trie.loc
    ensures x in ck && ck[x].kind == Free && ck[x].size == b.sz[x]
  {
    hide Shape, SmallOk, NodeOk, SlotOk, Shaped, Placed, Keyed, Unique, Chained, Tagged;
  }

  lemma LooseBins(m: Mem, smallmap: bv32, treemap: bv32, b: Bins, ck: Chunks, segs: seq<Segment>, least: int)
    requires Loose(m, smallmap, treemap, b, ck, segs, least)
    ensures BinsReady(m, smallmap, treemap, b, least) && FreeIn(ck, b.sz) && Held(m, smallmap, treemap, b, ck, least)
  {
    hide Shape, Records, Tagged, SegList, Regions, AboveLeast, BinsReady, FreeIn;
    LooseParts(m, smallmap, treemap, b, ck, segs, least);
  }

  lemma FewerFree(ck: Chunks, sz: map<int, int>, p: int)
    requires FreeIn(ck, sz)
    ensures FreeIn(ck, sz - {p})
  {
  }

  // ----- Between operations

  ghost predicate DvOk(ck: Chunks, dv: int, dvsize: int) {
    && (dv == 0 <==> dvsize == 0)
    && (dv != 0 ==> dv in ck && ck[dv].kind == Free && ck[dv].size == dvsize)
  }

  ghost predicate TopOk(ck: Chunks, segs: seq<Segment>, top: int, topsize: int) {
    if segs == [] then top == 0 && topsize == 0 && ck == map[]
    else top in ck && ck[top].kind == Top && ck[top].size == topsize
  }

  /** Every free chunk is in its bin or is the designated victim, and no two of them touch. */
  ghost predicate Settled(sz: map<int, int>, ck: Chunks, segs: seq<Segment>, dv: int, dvsize: int, top: int,
                          topsize: int) {
    Coalesced(ck) && DvOk(ck, dv, dvsize) && TopOk(ck, segs, top, topsize) && sz == FreeOf(ck) - {dv}
  }

  // ----- What callers see

  /** The payloads of the blocks `live` are the same in both memories. */
  ghost predicate BlocksKept(m: Mem, n: Mem, live: map<int, int>) {
    forall a, w {:trigger a in live, Rd(n, w)} :: a in live && a + 16 <= w < a + live[a] + 8 ==> Rd(n, w) == Rd(m, w)
  }

  lemma KeptBlocks(m: Mem, n: Mem, ck: Chunks, live: map<int, int>)
    requires PayloadsKept(m, n, ck) && forall a | a in live :: a in ck && ck[a].kind == Live && ck[a].size == live[a]
    ensures BlocksKept(m, n, live)
  {
    forall a, w | a in live && a + 16 <= w < a + live[a] + 8 ensures Rd(n, w) == Rd(m, w) {
      assert a in ck;
    }
  }

  lemma BlocksTwice(m: Mem, m': Mem, n: Mem, live: map<int, int>)
    requires BlocksKept(m, m', live) && BlocksKept(m', n, live)
    ensures BlocksKept(m, n, live)
  {
    forall a, w | a in live && a + 16 <= w < a + live[a] + 8 ensures Rd(n, w) == Rd(m, w) {
      assert Rd(n, w) == Rd(m', w);
    }
  }

  /** A request of `nb` bytes was granted: a new block, not in use before and barely larger, and no
      other block touched. */
  ghost predicate Granted(m: Mem, ck: Chunks, n: Mem, d: Chunks, r: int, nb: int) {
    var p := r - 16;
    && p in d && d[p].kind == Live && nb <= d[p].size < nb + MIN_CHUNK_SIZE && r > 0 && r % 16 == 0
    && p !in LiveOf(ck) && LiveOf(d) == LiveOf(ck)[p := d[p].size]
    && BlocksKept(m, n, LiveOf(ck))
  }

  // ----- Sums

  ghost function Total(s: map<int, int>): int {
    if exists k :: k in s then var k :| k in s; s[k] + Total(s - {k}) else 0
  }

  lemma {:induction false} TotalWithout(s: map<int, int>, k: int)
    requires k in s
    ensures Total(s) == s[k] + Total(s - {k})
    decreases |s|
  {
    var j :| j in s && Total(s) == s[j] + Total(s - {j});
    if j != k {
      assert |(s - {j}).Keys| < |s.Keys| by { assert (s - {j}).Keys == s.Keys - {j}; }
      assert |(s - {k}).Keys| < |s.Keys| by { assert (s - {k}).Keys == s.Keys - {k}; }
      TotalWithout(s - {j}, k);
      TotalWithout(s - {k}, j);
      assert s - {j} - {k} == s - {k} - {j};
    }
  }

  lemma TotalWith(s: map<int, int>, k: int, v: int)
    requires k !in s
    ensures Total(s[k := v]) == Total(s) + v
  {
    TotalWithout(s[k := v], k);
    assert s[k := v] - {k} == s;
  }
}
