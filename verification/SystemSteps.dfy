/** What memory looks like after the heap has gained system memory or given some back. */
module SystemSteps {
  import opened Memory
  import opened Bits
  import opened BinMap
  import opened Tries
  import opened Bins
  import opened BinSteps
  import opened Layout
  import opened Segments
  import opened Tags
  import opened Moves
  import opened Retags
  import opened Invariant
  import opened Growth
  import opened SegmentGrowth
  import opened Grants
  import opened Frees

  // ----- Records

  /** Records lie apart. */
  lemma RecordsApart(ck: Chunks, segs: seq<Segment>, i: nat, j: nat)
    requires LayoutOk(ck, segs) && i < j < |segs|
    ensures segs[i].rec + 32 <= segs[j].rec || segs[j].rec + 32 <= segs[i].rec
  {
    hide Shape, Seats, HasSegment;
    assert Recorded(ck, segs[j]);
    ChunkIn(ck, segs[j].rec - 16);
    if i > 0 {
      assert Recorded(ck, segs[i]);
      TwoRecords(ck, segs, i, j);
    }
  }

  lemma TwoRecords(ck: Chunks, segs: seq<Segment>, i: nat, j: nat)
    requires LayoutOk(ck, segs) && 1 <= i < j < |segs| && Recorded(ck, segs[i]) && Recorded(ck, segs[j])
    ensures segs[i].rec + 32 <= segs[j].rec || segs[j].rec + 32 <= segs[i].rec
  {
    hide Shape, Seats, Records;
    SegmentChunk(ck, segs, i, j, segs[j].rec - 16);
    SegmentChunk(ck, segs, i, i, segs[i].rec - 16);
    Apart2(ck, segs[i].rec - 16, segs[j].rec - 16);
  }

  // ----- The newest segment made longer or shorter

  lemma RetopFacts(ck: Chunks, segs: seq<Segment>, a: int, s: int)
    requires LayoutOk(ck, segs) && Coalesced(ck) && CanRetop(ck, segs, a, s)
    ensures var d := ResizeTop(ck, a, s);
      && Coalesced(d) && LiveOf(d) == LiveOf(ck) && FreeOf(d) == FreeOf(ck) && a in d && d[a] == Chunk(s, Top, 0)
      && ck[a].prev == 0
  {
    hide LayoutOk, OutsideOthers;
    TopEnd(ck, segs, a);
    forall x | x in ck && x == a + s ensures ck[x].kind == Foot {
      ResizeAway(ck, segs, a, s);
      assert Shape(ck) by { LayoutParts(ck, segs); }
      assert x == a + ck[a].size by { SizePositive(ck, x); }
    }
  }

  lemma RetopTags(m: Mem, ck: Chunks, a: int, s: int)
    requires Shape(ck) && Tagged(m, ck) && a in ck && ck[a].kind == Top && ck[a].prev == 0 && s > 0
    requires Shape(ResizeTop(ck, a, s))
    ensures var n, d := m[a + HEAD := s + PINUSE_BIT][a + s + HEAD := TOP_FOOT_SIZE], ResizeTop(ck, a, s);
      Tagged(n, d) && OnlyTags(m, n, d)
  {
    hide Shape, HeadWord;
    var n, d := m[a + HEAD := s + PINUSE_BIT][a + s + HEAD := TOP_FOOT_SIZE], ResizeTop(ck, a, s);
    ChunkIn(d, a);
    ChunkIn(d, a + s);
    Heads(s, 0);
    assert HeadWord(TOP_FOOT) == TOP_FOOT_SIZE by { FootHead(); }
    Retag(m, n, ck, d, {a, a + s});
  }

  lemma FootHead()
    ensures HeadWord(TOP_FOOT) == TOP_FOOT_SIZE
  {
  }

  lemma RetopKeeps(ck: Chunks, sz: map<int, int>, a: int, s: int, least: int)
    requires a in ck && ck[a].kind == Top && s > 0 && AboveLeast(ck, least) && FreeIn(ck, sz)
    requires forall x | x in ck && x == a + s :: ck[x].kind != Free
    requires a + ck[a].size in ck && ck[a + ck[a].size].kind == Foot
    ensures AboveLeast(ResizeTop(ck, a, s), least) && FreeIn(ResizeTop(ck, a, s), sz)
  {
  }

  lemma RetopNotFree(ck: Chunks, segs: seq<Segment>, a: int, s: int)
    requires LayoutOk(ck, segs) && CanRetop(ck, segs, a, s)
    ensures forall x | x in ck && x == a + s :: ck[x].kind != Free
    ensures a + ck[a].size in ck && ck[a + ck[a].size].kind == Foot
  {
    hide LayoutOk, OutsideOthers;
    TopEnd(ck, segs, a);
    ResizeAway(ck, segs, a, s);
    assert Shape(ck) by { LayoutParts(ck, segs); }
    forall x | x in ck && x == a + s ensures ck[x].kind != Free {
      SizePositive(ck, x);
    }
  }

  lemma RetopList(m: Mem, ck: Chunks, segs: seq<Segment>, a: int, s: int)
    requires LayoutOk(ck, segs) && SegList(m, segs) && |segs| > 0
    ensures SegList(m[SEG + SEG_SIZE := Retopped(segs, a, s)[0].size], Retopped(segs, a, s))
  {
    hide Shape, Seats, SegList;
    var segs' := Retopped(segs, a, s);
    var m' := m[SEG + SEG_SIZE := segs'[0].size];
    forall i | 0 <= i < |segs'| ensures RecordWords(m', segs', i) {
      ListWords(m, segs, i);
      if i > 0 { RecordsApart(ck, segs, 0, i); }
    }
    ListIs(m', segs');
  }

  lemma ListWords(m: Mem, segs: seq<Segment>, i: nat)
    requires SegList(m, segs) && i < |segs|
    ensures RecordWords(m, segs, i)
  {
  }

  lemma ListIs(m: Mem, segs: seq<Segment>)
    requires segs != [] && forall i | 0 <= i < |segs| :: RecordWords(m, segs, i)
    ensures SegList(m, segs)
  {
  }

  /** sp->size and init_top, when the newest segment grows or shrinks. */
  lemma Retop(m: Mem, smallmap: bv32, treemap: bv32, b: Bins, ck: Chunks, segs: seq<Segment>, least: int, a: int,
              s: int)
    requires Loose(m, smallmap, treemap, b, ck, segs, least) && Coalesced(ck) && CanRetop(ck, segs, a, s)
    requires Regions(Retopped(segs, a, s))
    ensures var segs', d := Retopped(segs, a, s), ResizeTop(ck, a, s);
      var n := m[SEG + SEG_SIZE := segs'[0].size][a + HEAD := s + PINUSE_BIT][a + s + HEAD := TOP_FOOT_SIZE];
      && Loose(n, smallmap, treemap, b, d, segs', least) && Coalesced(d)
      && LiveOf(d) == LiveOf(ck) && FreeOf(d) == FreeOf(ck) && a in d && d[a] == Chunk(s, Top, 0)
      && BlocksKept(m, n, LiveOf(ck))
  {
    hide Loose, LayoutOk, Shape, Records, SegList, Regions, BinsReady, Tagged, AboveLeast, FreeIn, Held, Coalesced,
         CanRetop, ResizeTop,
         Retopped, OnlyTags, PayloadsKept, BlocksKept, LiveOf, FreeOf;
    CanRetopTop(ck, segs, a, s);
    var segs', d := Retopped(segs, a, s), ResizeTop(ck, a, s);
    var m' := m[SEG + SEG_SIZE := segs'[0].size];
    var n := m'[a + HEAD := s + PINUSE_BIT][a + s + HEAD := TOP_FOOT_SIZE];
    LooseHeld(m, smallmap, treemap, b, ck, segs, least);
    HeldParts(m, smallmap, treemap, b, ck, least);
    assert Idle(ck, SEG + SEG_SIZE) by { StateIdle(ck, SEG + SEG_SIZE); }
    HeldIdle(m, m', smallmap, treemap, b, ck, least);
    RetopFacts(ck, segs, a, s);
    RetopLayout(ck, segs, a, s);
    LayoutParts(d, segs');
    HeldParts(m', smallmap, treemap, b, ck, least);
    RetopTags(m', ck, a, s);
    RetopNotFree(ck, segs, a, s);
    RetopKeeps(ck, b.sz, a, s, least);
    HeldTags(m', n, smallmap, treemap, b, ck, d, least);
    RetopList(m, ck, segs, a, s);
    StateWordsTags(m', n, d);
    SegListKept(m', n, d, segs');
    HeldLoose(n, smallmap, treemap, b, d, segs', least);
    LiveInLive(d);
    KeptBlocks(m', n, d, LiveOf(ck));
    BlocksTwice(m, m', n, LiveOf(ck));
  }

  lemma LiveInLive(ck: Chunks)
    ensures forall a | a in LiveOf(ck) :: a in ck && ck[a].kind == Live && ck[a].size == LiveOf(ck)[a]
  {
  }

  lemma CanRetopTop(ck: Chunks, segs: seq<Segment>, a: int, s: int)
    requires CanRetop(ck, segs, a, s)
    ensures a in ck && ck[a].kind == Top && s > 0 && |segs| > 0 && |Retopped(segs, a, s)| == |segs|
  {
  }


  // ----- The first segment

  /** What init_bins may write. */
  ghost predicate SmallHeader(w: int) {
    STATE + 72 <= w < STATE + 600
  }

  lemma NoBins(m: Mem, smallmap: bv32, treemap: bv32, b: Bins)
    requires BinsOk(m, smallmap, treemap, b) && b.sz == map[]
    ensures |b.small| == NBINS && (forall i | 0 <= i < NBINS :: b.small[i] == []) && (forall p :: p !in b.trie.at)
  {
    hide Marked, SmallBinOk, SlotOk, NodeOk;
    forall i | 0 <= i < NBINS ensures b.small[i] == [] {
      SmallNone(b, i);
    }
    forall p ensures p !in b.trie.at {
      if p in b.trie.at {
        NodeMember(m, treemap, b, p);
      }
    }
  }

  lemma SmallNone(b: Bins, i: nat)
    requires SmallPlaced(b) && i < NBINS
    ensures |b.small| == NBINS && (b.small[i] != [] ==> b.sz != map[])
  {
    assert b.small[i] != [] ==> b.small[i][0] in b.sz;
  }

  lemma NodeMember(m: Mem, treemap: bv32, b: Bins, p: Pos)
    requires TreeOk(m, treemap, b) && p in b.trie.at
    ensures b.sz != map[]
  {
    hide SlotOk, ChainOk, HeadOk, WellFormed;
    assert NodeOk(m, b.trie, p);
    ChainIn(b.trie, b.sz, p, 0);
  }

  /** Empty bins need only the tree slots. */
  lemma EmptyKept(m: Mem, n: Mem, smallmap: bv32, treemap: bv32, b: Bins, least: int, least': int)
    requires BinsReady(m, smallmap, treemap, b, least) && b.sz == map[]
    requires forall i | 0 <= i < NBINS :: Rd(n, TreeBinAt(i)) == Rd(m, TreeBinAt(i))
    ensures BinsReady(n, smallmap, treemap, b, least')
  {
    hide Marked, NodeOk, WellFormed;
    NoBins(m, smallmap, treemap, b);
    forall i | 0 <= i < NBINS ensures SmallBinOk(n, smallmap, b.small[i], i) {
      assert SmallBinOk(m, smallmap, b.small[i], i);
    }
    forall i | 0 <= i < NBINS ensures SlotOk(n, treemap, b.trie, i) {
      assert SlotOk(m, treemap, b.trie, i);
    }
  }

  lemma FirstTags(n: Mem, base: int, size: int)
    requires Usable(base, size) && Rd(n, base + HEAD) == size - TOP_FOOT_SIZE + PINUSE_BIT
    requires Rd(n, base + size - TOP_FOOT_SIZE + HEAD) == TOP_FOOT_SIZE
    ensures Tagged(n, AddTop(map[], base, size))
  {
    Heads(size - TOP_FOOT_SIZE, 0);
  }

  lemma FirstClear(base: int, size: int, w: int)
    requires Usable(base, size) && STATE <= w < STATE + STATE_SIZE
    ensures w != base + HEAD && w != base + size - TOP_FOOT_SIZE + HEAD
  {
  }

  /** sys_alloc, for the first time. */
  lemma FirstRegion(m: Mem, n: Mem, smallmap: bv32, treemap: bv32, b: Bins, least: int, base: int, size: int)
    requires Loose(m, smallmap, treemap, b, map[], [], least) && b.sz == map[] && Usable(base, size)
    requires RegionOk(base, size)
    requires Rd(n, SEG) == base && Rd(n, SEG + SEG_SIZE) == size && Rd(n, SEG + SEG_FLAGS) == USE_MMAP_BIT
    requires Rd(n, SEG + SEG_NEXT) == Rd(m, SEG + SEG_NEXT)
    requires forall i | 0 <= i < NBINS :: Rd(n, TreeBinAt(i)) == Rd(m, TreeBinAt(i))
    requires Rd(n, base + HEAD) == size - TOP_FOOT_SIZE + PINUSE_BIT
    requires Rd(n, base + size - TOP_FOOT_SIZE + HEAD) == TOP_FOOT_SIZE
    ensures var d, segs := AddTop(map[], base, size), [Segment(base, size, SEG)];
      && Loose(n, smallmap, treemap, b, d, segs, base) && Coalesced(d) && LiveOf(d) == map[] && FreeOf(d) == map[]
      && base in d && d[base] == Chunk(size - TOP_FOOT_SIZE, Top, 0)
  {
    hide Loose, Held, LayoutOk, Shape, Records, Tagged, BinsReady, Usable, RegionOk, SegList, Regions, AddTop, LiveOf,
         FreeOf, Coalesced, FreeIn, AboveLeast;
    var d, segs := AddTop(map[], base, size), [Segment(base, size, SEG)];
    LooseHeld(m, smallmap, treemap, b, map[], [], least);
    HeldParts(m, smallmap, treemap, b, map[], least);
    EmptyKept(m, n, smallmap, treemap, b, least, base);
    FirstSegment(base, size);
    LayoutParts(d, segs);
    FirstTags(n, base, size);
    FirstFacts(base, size, b.sz);
    FirstList(m, n, base, size);
    HeldIs(n, smallmap, treemap, b, d, base);
    HeldLoose(n, smallmap, treemap, b, d, segs, base);
  }

  lemma FirstFacts(base: int, size: int, sz: map<int, int>)
    requires Usable(base, size) && sz == map[]
    ensures var d := AddTop(map[], base, size);
      && Coalesced(d) && LiveOf(d) == map[] && FreeOf(d) == map[] && base in d
      && d[base] == Chunk(size - TOP_FOOT_SIZE, Top, 0)
      && AboveLeast(d, base) && FreeIn(d, sz)
  {
  }

  lemma FirstList(m: Mem, n: Mem, base: int, size: int)
    requires SegList(m, []) && RegionOk(base, size)
    requires Rd(n, SEG) == base && Rd(n, SEG + SEG_SIZE) == size && Rd(n, SEG + SEG_FLAGS) == USE_MMAP_BIT
    requires Rd(n, SEG + SEG_NEXT) == Rd(m, SEG + SEG_NEXT)
    ensures SegList(n, [Segment(base, size, SEG)]) && Regions([Segment(base, size, SEG)])
  {
    hide RegionOk;
    assert RecordWords(n, [Segment(base, size, SEG)], 0);
  }

  lemma HeldIs(m: Mem, smallmap: bv32, treemap: bv32, b: Bins, ck: Chunks, least: int)
    requires Shape(ck) && Tagged(m, ck) && AboveLeast(ck, least) && BinsReady(m, smallmap, treemap, b, least)
    requires FreeIn(ck, b.sz)
    ensures Held(m, smallmap, treemap, b, ck, least)
  {
    hide Shape, BinsReady, Tagged, AboveLeast, FreeIn;
  }

  // ----- A new segment besides the others

  /** The layout after add_segment: what is left of the old top is free. */
  ghost function AddedLayout(ck: Chunks, a: int, base: int, size: int): Chunks
    requires a in ck
  {
    var d := AddTop(Retire(ck, a), base, size);
    if a in d && d[a].kind == Live && a + d[a].size in d then Rekind(d, a, Free) else d
  }

  /** `n` differs from `m` only from the head of the old top to the end of its segment, in the new
      region, and in the malloc_state's own record. */
  ghost predicate AddedOnly(m: Mem, n: Mem, lo: int, hi: int, base: int, size: int) {
    forall w {:trigger Rd(n, w)} ::
      !(lo <= w < hi) && !(base + HEAD <= w < base + size) && !(SEG <= w < SEG + 32) ==> Rd(n, w) == Rd(m, w)
  }

  /** The head and foot words that add_segment leaves; `c` is where the record's chunk is. */
  ghost predicate AddedTags(n: Mem, a: int, c: int, base: int, size: int) {
    && Rd(n, base + HEAD) == size - TOP_FOOT_SIZE + PINUSE_BIT
    && Rd(n, base + size - TOP_FOOT_SIZE + HEAD) == TOP_FOOT_SIZE
    && Rd(n, c + RECORD_SIZE + HEAD) == FENCEPOST_HEAD
    && (c == a ==> Rd(n, a + HEAD) == RECORD_SIZE + CINUSE_BIT + PINUSE_BIT)
    && (c != a ==> Rd(n, a + HEAD) == c - a + PINUSE_BIT && Rd(n, c + HEAD) == RECORD_SIZE + CINUSE_BIT && Rd(n, c) == c - a)
  }

  lemma AddedIs(ck: Chunks, segs: seq<Segment>, a: int, base: int, size: int)
    requires LayoutOk(ck, segs) && Coalesced(ck) && a in ck && ck[a].kind == Top && Usable(base, size)
    requires Outside(segs, base, size)
    ensures |segs| > 0 && LayoutOk(AddedLayout(ck, a, base, size), Pushed(ck, segs, a, base, size))
    ensures var d, c, s := AddedLayout(ck, a, base, size), RecordAt(ck, a), ck[a].size;
      && base in d && d[base] == Chunk(size - TOP_FOOT_SIZE, Top, 0)
      && base + size - TOP_FOOT_SIZE in d && d[base + size - TOP_FOOT_SIZE] == TOP_FOOT
      && c in d && c + RECORD_SIZE in d && d[c + RECORD_SIZE].kind == Fence && d[c + RECORD_SIZE].prev == 0
      && d[c] == Chunk(RECORD_SIZE, Record, c - a)
      && (c != a ==> c == a + s && a in d && d[a] == Chunk(s, Free, 0))
  {
    hide Shape, Seats, Records, Usable, Outside, Retire;
    PushLayout(ck, segs, a, base, size);
    TopEnd(ck, segs, a);
    RetiredParts(ck, a);
    AddTopSame(ck, segs, a, base, size, a);
    var c := RecordAt(ck, a);
    AddTopSame(ck, segs, a, base, size, c);
    AddTopSame(ck, segs, a, base, size, c + RECORD_SIZE);
    UsableSize(base, size);
    if c != a {
      RekindOk(AddTop(Retire(ck, a), base, size), Pushed(ck, segs, a, base, size), a, Free);
      AddTopApart(ck, segs, a, base, size);
    }
  }

  lemma RetiredParts(ck: Chunks, a: int)
    requires Shape(ck) && Coalesced(ck) && a in ck && ck[a].kind == Top
    ensures var d, c, s := Retire(ck, a), RecordAt(ck, a), ck[a].size;
      && c in d && d[c] == Chunk(RECORD_SIZE, Record, 0)
      && c + RECORD_SIZE in d && d[c + RECORD_SIZE].kind == Fence && d[c + RECORD_SIZE].prev == 0
      && a in d && (c != a ==> c == a + s && s > 0 && d[a] == Chunk(s, Live, 0))
  {
    hide Shape;
    TopThenFoot(ck, a);
  }

  lemma AddTopApart(ck: Chunks, segs: seq<Segment>, a: int, base: int, size: int)
    requires LayoutOk(ck, segs) && a in ck && ck[a].kind == Top && Usable(base, size) && Outside(segs, base, size)
    ensures a + ck[a].size != base && a + ck[a].size != base + size - TOP_FOOT_SIZE && a != base
    ensures a != base + size - TOP_FOOT_SIZE
  {
    hide Shape, Seats, Records;
    TopEnd(ck, segs, a);
  }

  /** Everywhere else the layout is the same. */
  lemma AddedElsewhere(ck: Chunks, segs: seq<Segment>, a: int, base: int, size: int, x: int)
    requires LayoutOk(ck, segs) && Coalesced(ck) && a in ck && ck[a].kind == Top && Usable(base, size)
    requires Outside(segs, base, size)
    requires x in AddedLayout(ck, a, base, size) && x != base && x != base + size - TOP_FOOT_SIZE && x != a
    requires x != RecordAt(ck, a) && x != RecordAt(ck, a) + RECORD_SIZE
    ensures x in ck && AddedLayout(ck, a, base, size)[x] == ck[x] && x != a + ck[a].size
  {
    hide Shape, Seats, Records, Usable, Outside;
    PushLayout(ck, segs, a, base, size);
    TopEnd(ck, segs, a);
    RetiredParts(ck, a);
    AddTopSame(ck, segs, a, base, size, a);
  }

  /** No word of another chunk's tags, payload or interior is written. */
  lemma AddedClear(ck: Chunks, segs: seq<Segment>, a: int, base: int, size: int, x: int, w: int)
    requires LayoutOk(ck, segs) && a in ck && ck[a].kind == Top && Usable(base, size) && Outside(segs, base, size)
    requires x in ck && x != a && x != a + ck[a].size
    requires x <= w < x + ck[x].size || (!Last(ck[x].kind) && x <= w < x + ck[x].size + HEAD)
    ensures !(a + HEAD <= w < a + ck[a].size + TOP_FOOT_SIZE) && !(base + HEAD <= w < base + size)
    ensures !(SEG <= w < SEG + 32)
  {
    hide LayoutOk, Shape, Seats, Records, Outside, Usable, Away;
    LayoutParts(ck, segs);
    OutsideAway(ck, segs, base, size);
    ClearOfTop(ck, a, x, w);
    ClearOfRegion(ck, base, size, x, w);
    StateClear(ck, x, w);
  }

  lemma ClearOfTop(ck: Chunks, a: int, x: int, w: int)
    requires Shape(ck) && a in ck && ck[a].kind == Top && x in ck && x != a && x != a + ck[a].size
    requires x <= w < x + ck[x].size || (!Last(ck[x].kind) && x <= w < x + ck[x].size + HEAD)
    ensures a + ck[a].size in ck && !(a + HEAD <= w < a + ck[a].size + TOP_FOOT_SIZE)
  {
    hide Shape;
    TopThenFoot(ck, a);
    DisjointFrom(ck, x, a);
    DisjointFrom(ck, x, a + ck[a].size);
  }

  lemma ClearOfRegion(ck: Chunks, base: int, size: int, x: int, w: int)
    requires Shape(ck) && Away(ck, {}, base, base + size) && x in ck
    requires x <= w < x + ck[x].size || (!Last(ck[x].kind) && x <= w < x + ck[x].size + HEAD)
    ensures !(base + HEAD <= w < base + size)
  {
    hide Shape;
    SizePositive(ck, x);
    if !Last(ck[x].kind) {
      NextIn(ck, x);
    }
  }

  lemma StateClear(ck: Chunks, x: int, w: int)
    requires Shape(ck) && x in ck && (x <= w < x + ck[x].size || (!Last(ck[x].kind) && x <= w < x + ck[x].size + HEAD))
    ensures !(SEG <= w < SEG + 32) && !BinArea(w)
  {
    hide Shape;
    ChunkIn(ck, x);
    SizePositive(ck, x);
    if !Last(ck[x].kind) {
      NextIn(ck, x);
      ChunkIn(ck, x + ck[x].size);
    }
  }

  lemma AddedTagged(m: Mem, n: Mem, ck: Chunks, segs: seq<Segment>, a: int, base: int, size: int)
    requires LayoutOk(ck, segs) && Coalesced(ck) && Tagged(m, ck) && a in ck && ck[a].kind == Top && Usable(base, size)
    requires Outside(segs, base, size)
    requires AddedOnly(m, n, a + HEAD, a + ck[a].size + TOP_FOOT_SIZE, base, size)
    requires AddedTags(n, a, RecordAt(ck, a), base, size)
    ensures Tagged(n, AddedLayout(ck, a, base, size))
  {
    hide LayoutOk, Shape, Seats, Records, Usable, Outside, AddedLayout, Coalesced, HeadWord, RecordAt;
    var d, c := AddedLayout(ck, a, base, size), RecordAt(ck, a);
    AddedIs(ck, segs, a, base, size);
    LayoutParts(ck, segs);
    AddedHeads(ck[a].size, size - TOP_FOOT_SIZE, c - a, d[c + RECORD_SIZE]);
    forall x | x in d ensures TagOk(n, x, d[x]) {
      if x != base && x != base + size - TOP_FOOT_SIZE && x != a && x != c && x != c + RECORD_SIZE {
        AddedElsewhere(ck, segs, a, base, size, x);
        assert TagOk(m, x, ck[x]);
        ChunkIn(ck, x);
        AddedClear(ck, segs, a, base, size, x, x + HEAD);
        AddedClear(ck, segs, a, base, size, x, x);
      }
    }
  }

  lemma AddedHeads(s: int, t: int, r: int, fence: Chunk)
    requires fence.kind == Fence
    ensures HeadWord(Chunk(s, Free, 0)) == s + PINUSE_BIT && HeadWord(Chunk(t, Top, 0)) == t + PINUSE_BIT
    ensures HeadWord(Chunk(RECORD_SIZE, Record, r)) == RECORD_SIZE + CINUSE_BIT + (if r == 0 then PINUSE_BIT else 0)
    ensures HeadWord(TOP_FOOT) == TOP_FOOT_SIZE && HeadWord(fence) == FENCEPOST_HEAD
  {
  }

  lemma AddedQuiet(m: Mem, n: Mem, ck: Chunks, segs: seq<Segment>, a: int, base: int, size: int, sz: map<int, int>)
    requires LayoutOk(ck, segs) && FreeIn(ck, sz) && a in ck && ck[a].kind == Top && Usable(base, size)
    requires Outside(segs, base, size)
    requires AddedOnly(m, n, a + HEAD, a + ck[a].size + TOP_FOOT_SIZE, base, size)
    ensures Quiet(m, n, sz)
  {
    hide LayoutOk, Usable, Outside, BinArea;
    forall w | BinArea(w) ensures Rd(n, w) == Rd(m, w) {
      UsableClear(base, size, w);
      TopClear(ck, segs, a, w);
    }
    forall x, w | x in sz && x + 16 <= w < x + sz[x] ensures Rd(n, w) == Rd(m, w) {
      FreeNotTop(ck, segs, a, x);
      AddedClear(ck, segs, a, base, size, x, w);
    }
  }

  lemma FreeNotTop(ck: Chunks, segs: seq<Segment>, a: int, x: int)
    requires LayoutOk(ck, segs) && a in ck && ck[a].kind == Top && x in ck && ck[x].kind != Top && ck[x].kind != Foot
    ensures x != a && x != a + ck[a].size
  {
    hide LayoutOk;
    TopEnd(ck, segs, a);
  }

  lemma TopClear(ck: Chunks, segs: seq<Segment>, a: int, w: int)
    requires LayoutOk(ck, segs) && a in ck && ck[a].kind == Top && BinArea(w)
    ensures !(a + HEAD <= w < a + ck[a].size + TOP_FOOT_SIZE) && !(SEG <= w < SEG + 32)
  {
    hide LayoutOk, Shape;
    TopEnd(ck, segs, a);
    OkShape(ck, segs);
    ChunkIn(ck, a);
    ChunkIn(ck, a + ck[a].size);
  }

  lemma UsableClear(base: int, size: int, w: int)
    requires Usable(base, size) && BinArea(w)
    ensures !(base + HEAD <= w < base + size)
  {
  }

  lemma AddedBlocks(m: Mem, n: Mem, ck: Chunks, segs: seq<Segment>, a: int, base: int, size: int)
    requires LayoutOk(ck, segs) && a in ck && ck[a].kind == Top && Usable(base, size) && Outside(segs, base, size)
    requires AddedOnly(m, n, a + HEAD, a + ck[a].size + TOP_FOOT_SIZE, base, size)
    ensures PayloadsKept(m, n, ck)
  {
    hide LayoutOk, Usable, Outside;
    forall x, w | x in ck && InUse(ck[x].kind) && PayloadWord(x, ck[x], w) ensures Rd(n, w) == Rd(m, w) {
      FreeNotTop(ck, segs, a, x);
      AddedClear(ck, segs, a, base, size, x, w);
    }
  }

  /** The record that was pushed, and the new one; `r` is the record's new place. */
  ghost predicate AddedRecords(m: Mem, n: Mem, r: int, base: int, size: int) {
    && Rd(n, r) == Rd(m, SEG) && Rd(n, r + SEG_SIZE) == Rd(m, SEG + SEG_SIZE)
    && Rd(n, r + SEG_NEXT) == Rd(m, SEG + SEG_NEXT) && Rd(n, r + SEG_FLAGS) == Rd(m, SEG + SEG_FLAGS)
    && Rd(n, SEG) == base && Rd(n, SEG + SEG_SIZE) == size && Rd(n, SEG + SEG_NEXT) == r
    && Rd(n, SEG + SEG_FLAGS) == USE_MMAP_BIT
  }

  lemma AddedList(m: Mem, n: Mem, ck: Chunks, segs: seq<Segment>, a: int, base: int, size: int)
    requires LayoutOk(ck, segs) && SegList(m, segs) && a in ck && ck[a].kind == Top && |segs| > 0
    requires PayloadsKept(m, n, ck) && AddedRecords(m, n, RecordAt(ck, a) + 16, base, size)
    ensures SegList(n, Pushed(ck, segs, a, base, size))
  {
    hide Shape, Seats, Records, SegList, PayloadsKept, RecordAt;
    var t := Pushed(ck, segs, a, base, size);
    FirstRecord(ck, segs);
    PushedAt(ck, segs, a, base, size, 0);
    ListWords(m, segs, 0);
    forall i | 0 <= i < |t| ensures RecordWords(n, t, i) {
      if i > 1 {
        PushedAt(ck, segs, a, base, size, i - 1);
        ListWords(m, segs, i - 1);
        RecordSame(m, n, ck, segs, i - 1);
        if i < |t| - 1 { PushedAt(ck, segs, a, base, size, i); }
      } else if i == 1 {
        if i < |t| - 1 { PushedAt(ck, segs, a, base, size, i); }
      }
    }
    ListIs(n, t);
  }

  lemma RecordSame(m: Mem, n: Mem, ck: Chunks, segs: seq<Segment>, i: nat)
    requires Records(ck, segs) && PayloadsKept(m, n, ck) && 1 <= i < |segs|
    ensures forall w | segs[i].rec <= w < segs[i].rec + 32 :: Rd(n, w) == Rd(m, w)
  {
    hide Records, PayloadWord;
    forall w | segs[i].rec <= w < segs[i].rec + 32 ensures Rd(n, w) == Rd(m, w) {
      RecordPayload(ck, segs, i, w);
    }
  }

  lemma AddedFacts(ck: Chunks, segs: seq<Segment>, a: int, base: int, size: int, sz: map<int, int>, least: int)
    requires LayoutOk(ck, segs) && Coalesced(ck) && a in ck && ck[a].kind == Top && Usable(base, size)
    requires Outside(segs, base, size)
    requires AboveLeast(ck, least) && least <= base && FreeIn(ck, sz)
    ensures var d, c := AddedLayout(ck, a, base, size), RecordAt(ck, a);
      && Coalesced(d) && LiveOf(d) == LiveOf(ck)
      && FreeOf(d) == (if c != a then FreeOf(ck)[a := ck[a].size] else FreeOf(ck))
      && AboveLeast(d, least) && FreeIn(d, sz)
  {
    hide LayoutOk, Usable, Outside, AddedLayout, RecordAt, Coalesced, LiveOf, FreeOf, AddedChunks;
    var d, c := AddedLayout(ck, a, base, size), RecordAt(ck, a);
    AddedSame(ck, segs, a, base, size);
    AddedCoalesced(ck, d, a, c, base, size);
    AddedLive(ck, d, a, c, base, size);
    AddedFree(ck, d, a, c, base, size, sz, least);
  }

  /** The layout after add_segment, chunk by chunk. */
  ghost predicate AddedChunks(ck: Chunks, d: Chunks, a: int, c: int, base: int, size: int)
    requires a in ck
  {
    var f, g, t := a + ck[a].size, base + size - TOP_FOOT_SIZE, c + RECORD_SIZE;
    && (forall x | x in d && x != base && x != g && x != a && x != c && x != t :: x in ck && d[x] == ck[x] && x != f)
    && (forall x | x in ck && x != a && x != f :: x in d && d[x] == ck[x] && x != base && x != g && x != c && x != t)
    && base in d && d[base].kind == Top && d[base].prev == 0 && g in d && d[g].kind == Foot && base < g
    && c in d && d[c].kind == Record && t in d && d[t].kind == Fence && a <= c
    && (c != a ==> a in d && d[a] == Chunk(ck[a].size, Free, 0)) && f in ck && ck[f].kind == Foot && ck[a].kind == Top
    && a != base && a != g && c != base && c != g && t != base && t != g
  }

  lemma AddedSame(ck: Chunks, segs: seq<Segment>, a: int, base: int, size: int)
    requires LayoutOk(ck, segs) && Coalesced(ck) && a in ck && ck[a].kind == Top && Usable(base, size)
    requires Outside(segs, base, size)
    ensures AddedChunks(ck, AddedLayout(ck, a, base, size), a, RecordAt(ck, a), base, size)
  {
    hide LayoutOk, Usable, Outside, AddedLayout, Coalesced;
    var d, c := AddedLayout(ck, a, base, size), RecordAt(ck, a);
    AddedIs(ck, segs, a, base, size);
    UsableSize(base, size);
    TopEnd(ck, segs, a);
    forall x | x in d && x != base && x != base + size - TOP_FOOT_SIZE && x != a && x != c && x != c + RECORD_SIZE
      ensures x in ck && d[x] == ck[x] && x != a + ck[a].size
    {
      AddedElsewhere(ck, segs, a, base, size, x);
    }
    forall x | x in ck && x != a && x != a + ck[a].size
      ensures x in d && d[x] == ck[x] && x != base && x != base + size - TOP_FOOT_SIZE && x != c + RECORD_SIZE
    {
      AddedOld(ck, segs, a, base, size, x);
    }
  }

  lemma AddedCoalesced(ck: Chunks, d: Chunks, a: int, c: int, base: int, size: int)
    requires a in ck && AddedChunks(ck, d, a, c, base, size) && Coalesced(ck)
    ensures Coalesced(d)
  {
  }

  lemma AddedLive(ck: Chunks, d: Chunks, a: int, c: int, base: int, size: int)
    requires a in ck && AddedChunks(ck, d, a, c, base, size)
    ensures LiveOf(d) == LiveOf(ck)
  {
    forall x ensures x in d && d[x].kind == Live <==> x in ck && ck[x].kind == Live {
      AddedKind(ck, d, a, c, base, size, Live, x);
    }
    assert forall x | x in d && d[x].kind == Live :: d[x].size == ck[x].size;
  }

  lemma AddedKind(ck: Chunks, d: Chunks, a: int, c: int, base: int, size: int, k: Kind, x: int)
    requires a in ck && AddedChunks(ck, d, a, c, base, size) && (k == Live || (k == Free && x != a))
    ensures x in d && d[x].kind == k <==> x in ck && ck[x].kind == k
  {
  }

  lemma AddedFree(ck: Chunks, d: Chunks, a: int, c: int, base: int, size: int, sz: map<int, int>, least: int)
    requires a in ck && AddedChunks(ck, d, a, c, base, size) && AboveLeast(ck, least) && least <= base && FreeIn(ck, sz)
    ensures FreeOf(d) == (if c != a then FreeOf(ck)[a := ck[a].size] else FreeOf(ck))
    ensures AboveLeast(d, least) && FreeIn(d, sz)
  {
    forall x | x != a ensures x in d && d[x].kind == Free <==> x in ck && ck[x].kind == Free {
      AddedKind(ck, d, a, c, base, size, Free, x);
    }
    assert forall x | x in d && d[x].kind == Free && x != a :: d[x].size == ck[x].size;
    assert a !in FreeOf(ck) && (c == a ==> d[a].kind != Free);
  }

  lemma AddedOld(ck: Chunks, segs: seq<Segment>, a: int, base: int, size: int, x: int)
    requires LayoutOk(ck, segs) && Coalesced(ck) && a in ck && ck[a].kind == Top && Usable(base, size)
    requires Outside(segs, base, size)
    requires x in ck && x != a && x != a + ck[a].size
    ensures x in AddedLayout(ck, a, base, size) && AddedLayout(ck, a, base, size)[x] == ck[x]
    ensures x != base && x != base + size - TOP_FOOT_SIZE && x != RecordAt(ck, a) + RECORD_SIZE
  {
    hide Shape, Seats, Records, Usable, Outside, Retire, Away;
    OkShape(ck, segs);
    RetireSame(ck, a, x);
    AddTopSame(ck, segs, a, base, size, x);
    OutsideAway(ck, segs, base, size);
    SizePositive(ck, x);
    UsableSize(base, size);
    AwayFrom(ck, base, size, x);
    TopThenFoot(ck, a);
    NotAfterTop(ck, a, x);
    AddedIs(ck, segs, a, base, size);
    RetiredParts(ck, a);
    AddTopSame(ck, segs, a, base, size, a);
  }

  lemma AwayFrom(ck: Chunks, base: int, size: int, x: int)
    requires Away(ck, {}, base, base + size) && x in ck && ck[x].size > 0 && size > TOP_FOOT_SIZE
    ensures x != base && x != base + size - TOP_FOOT_SIZE
  {
  }

  /** add_segment, up to the point where what is left of the old top goes into a bin. */
  lemma AddedRegion(m: Mem, n: Mem, smallmap: bv32, treemap: bv32, b: Bins, ck: Chunks, segs: seq<Segment>, least: int,
                    a: int, base: int, size: int)
    requires Loose(m, smallmap, treemap, b, ck, segs, least) && Coalesced(ck) && a in ck && ck[a].kind == Top
    requires Usable(base, size) && Outside(segs, base, size) && RegionOk(base, size) && least <= base
    requires AddedOnly(m, n, a + HEAD, a + ck[a].size + TOP_FOOT_SIZE, base, size)
    requires AddedTags(n, a, RecordAt(ck, a), base, size)
    requires AddedRecords(m, n, RecordAt(ck, a) + 16, base, size)
    ensures |segs| > 0
    ensures var d, t := AddedLayout(ck, a, base, size), Pushed(ck, segs, a, base, size);
      Loose(n, smallmap, treemap, b, d, t, least) && PayloadsKept(m, n, ck)
  {
    hide Loose, LayoutOk, Shape, Records, Tagged, SegList, Regions, BinsReady, Held, Usable, Outside, RegionOk,
         AddedOnly, AddedTags, AddedRecords,
         AddedLayout, Pushed, FreeIn, AboveLeast, PayloadsKept, Coalesced, LiveOf, FreeOf, Quiet;
    assert |segs| > 0 by { LooseHeld(m, smallmap, treemap, b, ck, segs, least); TopEnd(ck, segs, a); }
    var d, t := AddedLayout(ck, a, base, size), Pushed(ck, segs, a, base, size);
    LooseHeld(m, smallmap, treemap, b, ck, segs, least);
    HeldParts(m, smallmap, treemap, b, ck, least);
    AddedIs(ck, segs, a, base, size);
    OkShape(d, t);
    AddedTagged(m, n, ck, segs, a, base, size);
    AddedQuiet(m, n, ck, segs, a, base, size, b.sz);
    AddedBlocks(m, n, ck, segs, a, base, size);
    AddedFacts(ck, segs, a, base, size, b.sz, least);
    HeldQuiet(m, n, smallmap, treemap, b, ck, d, least);
    AddedList(m, n, ck, segs, a, base, size);
    AddedRegions(ck, segs, a, base, size);
    HeldLoose(n, smallmap, treemap, b, d, t, least);
  }

  lemma AddedRegions(ck: Chunks, segs: seq<Segment>, a: int, base: int, size: int)
    requires a in ck && |segs| > 0 && Regions(segs) && RegionOk(base, size)
    ensures Regions(Pushed(ck, segs, a, base, size))
  {
    hide RegionOk, RecordAt;
    var t := Pushed(ck, segs, a, base, size);
    PushedAt(ck, segs, a, base, size, 0);
    forall i | 0 <= i < |t| ensures RegionOk(t[i].base, t[i].size) {
      if i > 0 { PushedAt(ck, segs, a, base, size, i - 1); }
    }
  }

  /** The bound that the run-time checks use may be lowered. */
  lemma LowerLeast(m: Mem, smallmap: bv32, treemap: bv32, b: Bins, ck: Chunks, segs: seq<Segment>, least: int,
                   least': int)
    requires Loose(m, smallmap, treemap, b, ck, segs, least) && least' <= least
    ensures Loose(m, smallmap, treemap, b, ck, segs, least')
  {
    hide LayoutOk, Tagged, SegList, Regions, BinsOk, SizeTags;
  }

  // ----- A segment given back

  /** The segment holds a free chunk, its record and fenceposts, and nothing else. */
  ghost predicate UnusedIn(ck: Chunks, s: Segment) {
    s.base in ck && ck[s.base].kind == Free && s.base + ck[s.base].size >= s.base + s.size - TOP_FOOT_SIZE
  }

  /** Segment `k`, an older one, is unused. */
  ghost predicate Unused(ck: Chunks, segs: seq<Segment>, k: nat) {
    1 <= k < |segs| && UnusedIn(ck, segs[k])
  }

  lemma RecordNext(ck: Chunks, segs: seq<Segment>, k: nat)
    requires LayoutOk(ck, segs) && Coalesced(ck) && Unused(ck, segs, k)
    ensures var r := segs[k].rec - 16; r in ck && segs[k].base + ck[segs[k].base].size == r && ck[r].kind == Record
  {
    hide Shape, Seats, HasSegment;
    var p, r := segs[k].base, segs[k].rec - 16;
    assert Recorded(ck, segs[k]);
    assert ck[p].prev == 0 && segs[k].base <= r && r + ck[r].size < segs[k].base + segs[k].size;
    NextIn(ck, p);
    SizePositive(ck, r);
    var n := p + ck[p].size;
    Apart2(ck, p, r);
    if n != r {
      Apart2(ck, n, r);
      ChunkIn(ck, n);
      NextKind(ck, n);
    }
  }

  lemma NextKind(ck: Chunks, n: int)
    requires Shape(ck) && Coalesced(ck) && n in ck && ck[n].prev > 0
    ensures ck[n].kind == Live || ck[n].kind == Record
  {
    hide Shape;
    ChunkIn(ck, n);
  }

  lemma OnlyThree(ck: Chunks, segs: seq<Segment>, k: nat, x: int)
    requires LayoutOk(ck, segs) && Coalesced(ck) && Unused(ck, segs, k) && x in ck
    requires segs[k].base <= x < segs[k].base + segs[k].size
    ensures x == segs[k].base || ck[x].kind == Record || ck[x].kind == Fence
  {
    hide Shape, HasSegment, Records, SegmentsApart, Based, Coalesced;
    var p, r := segs[k].base, segs[k].rec - 16;
    RecordNext(ck, segs, k);
    NextIn(ck, r);
    var t := r + ck[r].size;
    var i := SeatOf(ck, segs, t);
    FenceInSegment(ck, segs, k, i);
    Apart2(ck, p, x);
    Apart2(ck, r, x);
    Apart2(ck, t, x);
    SizePositive(ck, p);
    SizePositive(ck, r);
    SizePositive(ck, x);
    SizePositive(ck, t);
  }

  lemma FenceInSegment(ck: Chunks, segs: seq<Segment>, k: nat, i: nat)
    requires LayoutOk(ck, segs) && 1 <= k < |segs| && segs[k].rec - 16 in ck && ck[segs[k].rec - 16].kind == Record
    requires var t := segs[k].rec - 16 + ck[segs[k].rec - 16].size; t in ck && i < |segs| && Seated(segs[i], t, ck[t])
    ensures i == k
  {
    hide Shape, Seats, HasSegment;
    assert Recorded(ck, segs[k]);
    LayoutApart(ck, segs);
    SameSegment(ck, segs, segs[k].rec - 16, k, i);
  }

  lemma DropFacts(ck: Chunks, segs: seq<Segment>, k: nat, sz: map<int, int>, least: int)
    requires LayoutOk(ck, segs) && Coalesced(ck) && Unused(ck, segs, k) && FreeIn(ck, sz) && segs[k].base !in sz
    requires AboveLeast(ck, least)
    ensures var d := Drop(ck, segs[k].base, segs[k].base + segs[k].size);
      && Coalesced(d) && LiveOf(d) == LiveOf(ck) && FreeOf(d) == FreeOf(ck) - {segs[k].base} && FreeIn(d, sz)
      && AboveLeast(d, least)
  {
    hide LayoutOk;
    assert segs[k].base in ck && segs[k].size > 0 by { UnusedBase(ck, segs, k); }
    forall x | x in ck && segs[k].base <= x < segs[k].base + segs[k].size && x != segs[k].base
      ensures ck[x].kind == Record || ck[x].kind == Fence
    {
      OnlyThree(ck, segs, k, x);
    }
    assert ck[segs[k].base].kind == Free by { UnusedBase(ck, segs, k); }
  }

  lemma UnusedBase(ck: Chunks, segs: seq<Segment>, k: nat)
    requires LayoutOk(ck, segs) && Unused(ck, segs, k)
    ensures segs[k].base in ck && ck[segs[k].base].kind == Free && segs[k].size > 0
  {
    hide Shape, Records, SegmentsApart, InSegs;
    assert Based(ck, segs[k]);
  }

  lemma DropList(m: Mem, ck: Chunks, segs: seq<Segment>, k: nat)
    requires LayoutOk(ck, segs) && SegList(m, segs) && 1 <= k < |segs|
    ensures SegList(m[segs[k - 1].rec + SEG_NEXT := NextRecord(segs, k)], WithoutSegment(segs, k))
  {
    hide LayoutOk, SegList, WithoutSegment;
    var t, n := WithoutSegment(segs, k), m[segs[k - 1].rec + SEG_NEXT := NextRecord(segs, k)];
    RemovedAt(segs, k, 0);
    forall i | 0 <= i < |t| ensures RecordWords(n, t, i) {
      var j := Skip(k, i);
      RemovedAt(segs, k, i);
      if i + 1 < |t| { RemovedAt(segs, k, i + 1); }
      ListWords(m, segs, j);
      if j < k - 1 { RecordsApart(ck, segs, j, k - 1); }
      if j > k - 1 { RecordsApart(ck, segs, k - 1, j); }
    }
    ListIs(n, t);
  }

  lemma DropRegions(segs: seq<Segment>, k: nat)
    requires Regions(segs) && k < |segs|
    ensures Regions(WithoutSegment(segs, k))
  {
    hide RegionOk, WithoutSegment;
    RemovedLast(segs, k);
    forall i | 0 <= i < |WithoutSegment(segs, k)|
      ensures RegionOk(WithoutSegment(segs, k)[i].base, WithoutSegment(segs, k)[i].size)
    {
      RemovedAt(segs, k, i);
    }
  }

  lemma DropTagged(m: Mem, ck: Chunks, lo: int, hi: int)
    requires Tagged(m, ck)
    ensures Tagged(m, Drop(ck, lo, hi))
  {
    hide TagOk;
    forall x | x in Drop(ck, lo, hi) ensures TagOk(m, x, Drop(ck, lo, hi)[x]) { assert TagOk(m, x, ck[x]); }
  }

  /** The record of segment `k` is taken out of the list, its free chunk having left the bins. */
  lemma Released(m: Mem, smallmap: bv32, treemap: bv32, b: Bins, ck: Chunks, segs: seq<Segment>, least: int, k: nat)
    requires Loose(m, smallmap, treemap, b, ck, segs, least) && Coalesced(ck) && Unused(ck, segs, k)
    requires segs[k].base !in b.sz
    ensures var n, d := m[segs[k - 1].rec + SEG_NEXT := NextRecord(segs, k)], Drop(ck, segs[k].base, segs[k].base + segs[k].size);
      && Loose(n, smallmap, treemap, b, d, WithoutSegment(segs, k), least)
      && Coalesced(d) && LiveOf(d) == LiveOf(ck) && FreeOf(d) == FreeOf(ck) - {segs[k].base}
      && BlocksKept(m, n, LiveOf(ck))
  {
    hide Loose, LayoutOk, Shape, Records, Tagged, SegList, Regions, BinsReady, Held, FreeIn, AboveLeast, Coalesced,
         LiveOf, FreeOf, Drop, WithoutSegment, Idle, BlocksKept;
    var w := segs[k - 1].rec + SEG_NEXT;
    var n, d := m[w := NextRecord(segs, k)], Drop(ck, segs[k].base, segs[k].base + segs[k].size);
    LooseHeld(m, smallmap, treemap, b, ck, segs, least);
    HeldParts(m, smallmap, treemap, b, ck, least);
    RecordIdle(ck, segs, k - 1, w);
    HeldIdle(m, n, smallmap, treemap, b, ck, least);
    HeldParts(n, smallmap, treemap, b, ck, least);
    DropLayout(ck, segs, k);
    OkShape(d, WithoutSegment(segs, k));
    DropFacts(ck, segs, k, b.sz, least);
    DropTagged(n, ck, segs[k].base, segs[k].base + segs[k].size);
    HeldIs(n, smallmap, treemap, b, d, least);
    DropList(m, ck, segs, k);
    DropRegions(segs, k);
    HeldLoose(n, smallmap, treemap, b, d, WithoutSegment(segs, k), least);
  }

  // ----- A segment extended downwards

  /** The new region in front of segment `k`: the block wanted, and the rest of the region. */
  ghost function FrontLayout(ck: Chunks, base: int, size: int, nb: int): Chunks {
    Cut(Prepend(ck, base, size), base, nb)
  }

  ghost predicate CanFront(segs: seq<Segment>, k: nat, base: int, size: int, nb: int) {
    && k < |segs| && Usable(base, size) && Outside(segs, base, size) && base + size == segs[k].base
    && nb % 16 == 0 && nb >= MIN_CHUNK_SIZE && size - nb >= MIN_CHUNK_SIZE
  }

  lemma FrontOk(ck: Chunks, segs: seq<Segment>, k: nat, base: int, size: int, nb: int)
    requires LayoutOk(ck, segs) && CanFront(segs, k, base, size, nb)
    ensures LayoutOk(FrontLayout(ck, base, size, nb), Rebound(segs, k, base, size + segs[k].size))
    ensures base !in ck && base + nb !in ck && base + size in ck
  {
    hide LayoutOk, Usable, Outside;
    PrependLayout(ck, segs, k, base, size);
    CutOk(Prepend(ck, base, size), Rebound(segs, k, base, size + segs[k].size), base, nb);
  }

  /** The layout chunk by chunk. */
  lemma FrontFacts(ck: Chunks, base: int, size: int, nb: int, sz: map<int, int>, least: int)
    requires Coalesced(ck) && base !in ck && base + nb !in ck && nb > 0 && FreeIn(ck, sz) && AboveLeast(ck, least)
    requires least <= base
    ensures var d, q := FrontLayout(ck, base, size, nb), base + nb;
      && base in d && d[base] == Chunk(nb, Live, 0) && q in d && d[q] == Chunk(size - nb, Live, 0)
      && (forall x | x in ck :: x in d && d[x] == ck[x]) && (forall x | x in d && x != base && x != q :: x in ck)
      && Coalesced(d) && FreeOf(d) == FreeOf(ck) && LiveOf(d) == LiveOf(ck)[base := nb][q := size - nb]
      && FreeIn(d, sz) && AboveLeast(d, least) && base !in LiveOf(ck) && q !in LiveOf(ck)
  {
  }

  /** Memory once the rest of the region is marked in use as well, so that it can be freed. */
  lemma FrontTags(m: Mem, ck: Chunks, base: int, size: int, nb: int)
    requires Tagged(m, ck) && base !in ck && base + nb !in ck && nb > 0 && Shape(FrontLayout(ck, base, size, nb))
    requires Rd(m, base + HEAD) == nb + PINUSE_BIT + CINUSE_BIT
    ensures var n, d := SetSizeOfInuse(m, base + nb, size - nb), FrontLayout(ck, base, size, nb);
      Tagged(n, d) && OnlyTags(m, n, d)
  {
    hide Shape, HeadWord;
    var n, d := SetSizeOfInuse(m, base + nb, size - nb), FrontLayout(ck, base, size, nb);
    Heads(nb, 0);
    Heads(size - nb, 0);
    ChunkIn(d, base);
    ChunkIn(d, base + nb);
    Retag(m, n, ck, d, {base, base + nb});
  }

  /** The record of segment `k` after its bounds were changed. */
  lemma ReboundList(m: Mem, ck: Chunks, segs: seq<Segment>, k: nat, base: int, size: int)
    requires LayoutOk(ck, segs) && SegList(m, segs) && k < |segs|
    ensures SegList(m[segs[k].rec := base][segs[k].rec + SEG_SIZE := size], Rebound(segs, k, base, size))
  {
    hide LayoutOk, SegList;
    var t, n := Rebound(segs, k, base, size), m[segs[k].rec := base][segs[k].rec + SEG_SIZE := size];
    forall i | 0 <= i < |t| ensures RecordWords(n, t, i) {
      ListWords(m, segs, i);
      if i < k { RecordsApart(ck, segs, i, k); }
      if i > k { RecordsApart(ck, segs, k, i); }
    }
    ListIs(n, t);
  }

  /** A word of the new region. */
  lemma RegionIdle(ck: Chunks, base: int, size: int, w: int)
    requires Shape(ck) && Away(ck, {}, base, base + size) && Usable(base, size) && base + HEAD <= w < base + size
    ensures Idle(ck, w)
  {
    hide Shape, Away, PayloadWord;
    assert !BinArea(w) by { if BinArea(w) { UsableClear(base, size, w); } }
    if w - HEAD in ck { ChunkIn(ck, w - HEAD); ClearOfRegion(ck, base, size, w - HEAD, w); }
    if w in ck { SizePositive(ck, w); ClearOfRegion(ck, base, size, w, w); }
    forall x | x in ck && ck[x].kind == Free ensures !(x + 16 <= w < x + ck[x].size) {
      if x + 16 <= w < x + ck[x].size { ClearOfRegion(ck, base, size, x, w); }
    }
    forall x | x in ck && ck[x].kind == Live ensures !PayloadWord(x, ck[x], w) {
      RegionNotPayload(ck, base, size, x, w);
    }
  }

  lemma RegionNotPayload(ck: Chunks, base: int, size: int, x: int, w: int)
    requires Shape(ck) && Away(ck, {}, base, base + size) && base + HEAD <= w < base + size && x in ck
    requires ck[x].kind == Live
    ensures !PayloadWord(x, ck[x], w)
  {
    hide Shape, Away;
    if PayloadWord(x, ck[x], w) {
      ClearOfRegion(ck, base, size, x, w);
    }
  }

  lemma LayoutAway(ck: Chunks, segs: seq<Segment>, base: int, size: int)
    requires LayoutOk(ck, segs) && Outside(segs, base, size)
    ensures Away(ck, {}, base, base + size)
  {
    hide Shape, Seats, Records, Away, Outside;
    OutsideAway(ck, segs, base, size);
  }

  /** Extending a segment's record and marking the block wanted touches nothing in use. */
  lemma FrontStart(m: Mem, smallmap: bv32, treemap: bv32, b: Bins, ck: Chunks, segs: seq<Segment>, least: int, k: nat,
                   base: int, size: int, nb: int)
    requires CanFront(segs, k, base, size, nb)
    requires Loose(m, smallmap, treemap, b, ck, segs, least)
    ensures var m' := m[segs[k].rec := base][segs[k].rec + SEG_SIZE := size + segs[k].size];
      var n := SetSizeOfInuse(m', base, nb);
      && Held(n, smallmap, treemap, b, ck, least) && BlocksKept(m, n, LiveOf(ck))
      && SegList(n, Rebound(segs, k, base, size + segs[k].size))
      && Rd(n, base + HEAD) == nb + PINUSE_BIT + CINUSE_BIT && Idle(ck, base + HEAD)
  {
    hide Loose, Held, LayoutOk, Shape, Records, SegList, Regions, Usable, Outside, Idle, Away, Rebound;
    LooseHeld(m, smallmap, treemap, b, ck, segs, least);
    HeldParts(m, smallmap, treemap, b, ck, least);
    LayoutAway(ck, segs, base, size);
    var r := segs[k].rec;
    var m' := m[r := base][r + SEG_SIZE := size + segs[k].size];
    var n := SetSizeOfInuse(m', base, nb);
    RecordIdle(ck, segs, k, r);
    RecordIdle(ck, segs, k, r + SEG_SIZE);
    assert size > HEAD by { UsableSize(base, size); }
    RegionIdle(ck, base, size, base + HEAD);
    HeldIdle(m, n, smallmap, treemap, b, ck, least);
    ReboundList(m, ck, segs, k, base, size + segs[k].size);
    FrontList(m', n, ck, segs, k, base, size, nb);
  }

  lemma FrontList(m: Mem, n: Mem, ck: Chunks, segs: seq<Segment>, k: nat, base: int, size: int, nb: int)
    requires LayoutOk(ck, segs) && k < |segs| && Usable(base, size) && Outside(segs, base, size)
    requires SegList(m, Rebound(segs, k, base, size + segs[k].size)) && n == SetSizeOfInuse(m, base, nb)
    ensures SegList(n, Rebound(segs, k, base, size + segs[k].size))
  {
    hide LayoutOk, SegList, Usable, Outside;
    var t := Rebound(segs, k, base, size + segs[k].size);
    assert t[0].rec == SEG by { LayoutParts(ck, segs); FirstRecord(ck, segs); }
    forall i, w | 0 <= i < |t| && t[i].rec <= w < t[i].rec + 32 ensures Rd(n, w) == Rd(m, w) {
      RegionNotRecords(ck, segs, base, size, i, w);
      UsableSize(base, size);
    }
    SegListFrame(m, n, t);
  }

  lemma PhantomFree(m: Mem, q: int, x: int, s: int, e: int)
    requires q != e
    ensures SetFree(SetSizeOfInuse(m, q, x), q, s, e) == SetFree(m, q, s, e)
    ensures SetSizeOfFree(SetSizeOfInuse(m, q, x), q, s) == SetSizeOfFree(m, q, s)
    ensures SetSizeOfInuse(m, q, x)[q + HEAD := s + PINUSE_BIT] == m[q + HEAD := s + PINUSE_BIT]
  {
  }

  lemma FrontSettled(sz0: map<int, int>, ck: Chunks, d: Chunks, segs: seq<Segment>, segs': seq<Segment>, dv: int,
                     dvsize: int, top: int, topsize: int)
    requires Settled(sz0, ck, segs, dv, dvsize, top, topsize) && segs != [] && segs' != []
    requires (forall x | x in ck :: x in d && d[x] == ck[x]) && Coalesced(d) && FreeOf(d) == FreeOf(ck)
    ensures Settled(sz0, d, segs', dv, dvsize, top, topsize)
  {
    hide Coalesced, FreeOf;
  }

  lemma FrontRun(ck: Chunks, d: Chunks, base: int, size: int, nb: int)
    requires Shape(d) && base + nb in d && d[base + nb] == Chunk(size - nb, Live, 0) && base + size in d
    ensures AtRun(d, base + nb, base + nb, base + size)
  {
  }

  /** The rest of the region can now be freed like a block. */
  lemma FrontReady(m: Mem, smallmap: bv32, treemap: bv32, b: Bins, ck: Chunks, segs: seq<Segment>, least: int, k: nat,
                   base: int, size: int, nb: int,
                   sz0: map<int, int>, dv: int, dvsize: int, top: int, topsize: int)
    requires CanFront(segs, k, base, size, nb) && least <= base && RegionOk(base, size)
    requires Held(m, smallmap, treemap, b, ck, least) && LayoutOk(ck, segs) && Regions(segs)
    requires SegList(m, Rebound(segs, k, base, size + segs[k].size))
    requires Rd(m, base + HEAD) == nb + PINUSE_BIT + CINUSE_BIT && Settled(sz0, ck, segs, dv, dvsize, top, topsize)
    requires b.sz == sz0 - {base + size}
    ensures var n, d, q, segs' := SetSizeOfInuse(m, base + nb, size - nb), FrontLayout(ck, base, size, nb),
        base + nb, Rebound(segs, k, base, size + segs[k].size);
      && Merging(n, n, smallmap, treemap, b, d, segs', least, q, sz0, dv, dvsize, top, topsize)
      && AtRun(d, q, q, base + size) && base + size in ck && d[base + size] == ck[base + size]
      && LiveOf(d) == LiveOf(ck)[base := nb][q := size - nb] && base !in LiveOf(ck) && q !in LiveOf(ck) && q != base
      && base in d && d[base] == Chunk(nb, Live, 0)
      && BlocksKept(m, n, LiveOf(ck)) && base + nb !in ck
  {
    hide LayoutOk, Shape, Records, SegList, Regions, Usable, Outside, Idle, Rebound, Tagged, BinsReady, FreeIn,
         AboveLeast, FrontLayout, LiveOf, FreeOf,
         OnlyTags, PayloadsKept, BlocksKept, RegionOk, Coalesced, SetSizeOfInuse, Held, TopOk, DvOk, RunBase;
    var n, d, q, segs' := SetSizeOfInuse(m, base + nb, size - nb), FrontLayout(ck, base, size, nb),
        base + nb, Rebound(segs, k, base, size + segs[k].size);
    HeldParts(m, smallmap, treemap, b, ck, least);
    FrontOk(ck, segs, k, base, size, nb);
    OkShape(d, segs');
    FrontFacts(ck, base, size, nb, b.sz, least);
    FrontTags(m, ck, base, size, nb);
    HeldTags(m, n, smallmap, treemap, b, ck, d, least);
    FrontList2(m, n, ck, segs, k, base, size, nb);
    FrontIdle(m, n, smallmap, treemap, b, ck, segs, least, base, size, nb);
    FrontRegions(segs, k, base, size);
    HeldLoose(n, smallmap, treemap, b, d, segs', least);
    FrontSettled(sz0, ck, d, segs, segs', dv, dvsize, top, topsize);
    FrontRun(ck, d, base, size, nb);
    KeptSelf(n, d);
    FrontUnbinned(ck, sz0, dv, q, base);
  }

  lemma FrontUnbinned(ck: Chunks, sz0: map<int, int>, dv: int, q: int, base: int)
    requires sz0 == FreeOf(ck) - {dv} && q !in ck
    ensures q !in sz0
  {
  }

  lemma FrontRegions(segs: seq<Segment>, k: nat, base: int, size: int)
    requires k < |segs| && Regions(segs) && RegionOk(base, size) && base + size == segs[k].base
    ensures Regions(Rebound(segs, k, base, size + segs[k].size)) &&
      |Rebound(segs, k, base, size + segs[k].size)| == |segs|
  {
    assert RegionOk(segs[k].base, segs[k].size);
    AddMod(size, segs[k].size, Pow2(GRANULARITY_BITS));
  }

  lemma AddMod(a: int, b: int, m: int)
    requires m > 0 && a % m == 0 && b % m == 0
    ensures (a + b) % m == 0
  {
    var i, j := a / m, b / m;
    assert a + b == m * (i + j) + 0;
    ModOf(i + j, m);
  }

  lemma ModOf(k: int, m: int)
    requires m > 0
    ensures (m * k) % m == 0
  {
    var d, r := (m * k) / m, (m * k) % m;
    assert m * k == m * d + r;
    assert m * (k - d) == r;
    MulBound(m, k - d);
  }

  lemma MulBound(m: int, t: int)
    requires m > 0
    ensures t >= 1 ==> m * t >= m
    ensures t <= -1 ==> m * t <= -m
  {
  }

  lemma FrontList2(m: Mem, n: Mem, ck: Chunks, segs: seq<Segment>, k: nat, base: int, size: int, nb: int)
    requires CanFront(segs, k, base, size, nb) && LayoutOk(ck, segs)
    requires SegList(m, Rebound(segs, k, base, size + segs[k].size)) && n == SetSizeOfInuse(m, base + nb, size - nb)
    ensures SegList(n, Rebound(segs, k, base, size + segs[k].size))
  {
    hide LayoutOk, SegList, Usable, Outside, Shape, Records;
    var t := Rebound(segs, k, base, size + segs[k].size);
    LayoutParts(ck, segs);
    FirstRecord(ck, segs);
    forall i, w | 0 <= i < |t| && t[i].rec <= w < t[i].rec + 32 ensures Rd(n, w) == Rd(m, w) {
      RegionNotRecords(ck, segs, base, size, i, w);
    }
    SegListFrame(m, n, t);
  }

  lemma RegionNotRecords(ck: Chunks, segs: seq<Segment>, base: int, size: int, i: nat, w: int)
    requires LayoutOk(ck, segs) && Usable(base, size) && Outside(segs, base, size) && i < |segs|
    requires segs[i].rec <= w < segs[i].rec + 32
    ensures !(base + HEAD <= w < base + size)
  {
    hide Shape, Seats, Outside;
    if i > 0 {
      assert Recorded(ck, segs[i]);
      OutsideAway(ck, segs, base, size);
      ClearOfRegion(ck, base, size, segs[i].rec - 16, w);
    }
  }

  lemma FrontIdle(m: Mem, n: Mem, smallmap: bv32, treemap: bv32, b: Bins, ck: Chunks, segs: seq<Segment>, least: int,
                  base: int, size: int, nb: int)
    requires Held(m, smallmap, treemap, b, ck, least) && LayoutOk(ck, segs) && Usable(base, size)
    requires Outside(segs, base, size)
    requires nb >= MIN_CHUNK_SIZE && size - nb >= MIN_CHUNK_SIZE && n == SetSizeOfInuse(m, base + nb, size - nb)
    ensures BlocksKept(m, n, LiveOf(ck))
  {
    hide LayoutOk, Shape, Usable, Outside, Idle, Tagged, BinsReady, FreeIn, AboveLeast, BlocksKept, Away, Held;
    LayoutAway(ck, segs, base, size);
    HeldParts(m, smallmap, treemap, b, ck, least);
    RegionIdle(ck, base, size, base + nb + HEAD);
    HeldIdle(m, n, smallmap, treemap, b, ck, least);
  }

  // ----- The writes of add_segment

  /** Copying the malloc_state's record to `ss`. */
  function PushRecord(m: Mem, ss: int): Mem {
    var m1 := m[ss := Rd(m, SEG)];
    var m2 := m1[ss + SEG_SIZE := Rd(m1, SEG + SEG_SIZE)];
    var m3 := m2[ss + SEG_NEXT := Rd(m2, SEG + SEG_NEXT)];
    m3[ss + SEG_FLAGS := Rd(m3, SEG + SEG_FLAGS)]
  }

  /** The chunk `sp` takes the malloc_state's record, and the malloc_state a new one. */
  function NewRecord(m: Mem, sp: int, base: int, size: int): Mem {
    var m1 := PushRecord(SetSizeOfInuse(m, sp, RECORD_SIZE), sp + 16);
    m1[SEG := base][SEG + SEG_SIZE := size][SEG + SEG_FLAGS := USE_MMAP_BIT][SEG + SEG_NEXT := sp + 16]
  }

  /** The writes up to the fenceposts. */
  function AddWrites(m: Mem, sp: int, base: int, size: int): Mem {
    NewRecord(m[base + HEAD := size - TOP_FOOT_SIZE + PINUSE_BIT][base + (size - TOP_FOOT_SIZE) + HEAD := TOP_FOOT_SIZE], sp, base, size)
  }

  /** Only fenceposts were written, the first of them at `t`. */
  ghost predicate Fenced(m: Mem, n: Mem, t: int, hi: int) {
    && Rd(n, t + HEAD) == FENCEPOST_HEAD
    && forall w {:trigger Rd(n, w)} :: !(t + HEAD <= w < hi) ==> Rd(n, w) == Rd(m, w)
  }

  /** Where everything is: old top `a` with record at `c`, new region at `base`, all apart from the malloc_state. */
  ghost predicate AddPlaces(a: int, c: int, hi: int, base: int, size: int) {
    && a <= c && (c == a || c >= a + MIN_CHUNK_SIZE) && c + RECORD_SIZE + 32 <= hi && a % 16 == 0 && c % 16 == 0
    && size > TOP_FOOT_SIZE && (hi <= base || base + size <= a)
    && (hi <= SEG || SEG + 32 <= a) && (base + size <= SEG || SEG + 32 <= base)
  }

  lemma AddPlacesIs(ck: Chunks, segs: seq<Segment>, a: int, base: int, size: int)
    requires LayoutOk(ck, segs) && a in ck && ck[a].kind == Top && Usable(base, size) && Outside(segs, base, size)
    ensures |segs| > 0 && AddPlaces(a, RecordAt(ck, a), a + ck[a].size + TOP_FOOT_SIZE, base, size)
    ensures var e := segs[0].base + segs[0].size; e == a + ck[a].size + TOP_FOOT_SIZE && e % 16 == 0
    ensures RecordAt(ck, a) == if a + ck[a].size < a + MIN_CHUNK_SIZE then a else a + ck[a].size
  {
    hide LayoutOk, Shape;
    TopEnd(ck, segs, a);
    OkShape(ck, segs);
    ChunkIn(ck, a);
    ChunkIn(ck, a + ck[a].size);
  }

  lemma AddOnly(m: Mem, l: Mem, n: Mem, a: int, c: int, hi: int, base: int, size: int)
    requires AddPlaces(a, c, hi, base, size) && Fenced(AddWrites(m, c, base, size), l, c + RECORD_SIZE, hi)
    requires n == if c != a then SetFree(l, a, c - a, c) else l
    ensures AddedOnly(m, n, a + HEAD, hi, base, size)
  {
    forall w | !(a + HEAD <= w < hi) && !(base + HEAD <= w < base + size) && !(SEG <= w < SEG + 32)
      ensures Rd(n, w) == Rd(m, w)
    {
      assert Rd(n, w) == Rd(l, w);
      assert Rd(l, w) == Rd(AddWrites(m, c, base, size), w);
    }
  }

  lemma PushedWords(m: Mem, c: int, base: int, size: int, a: int, hi: int)
    requires AddPlaces(a, c, hi, base, size)
    ensures AddedRecords(m, AddWrites(m, c, base, size), c + 16, base, size)
    ensures var n := AddWrites(m, c, base, size);
      && Rd(n, base + HEAD) == size - TOP_FOOT_SIZE + PINUSE_BIT
      && Rd(n, base + size - TOP_FOOT_SIZE + HEAD) == TOP_FOOT_SIZE
      && Rd(n, c + HEAD) == RECORD_SIZE + PINUSE_BIT + CINUSE_BIT
  {
    hide NewRecord;
    var m' := m[base + HEAD := size - TOP_FOOT_SIZE + PINUSE_BIT][base + (size - TOP_FOOT_SIZE) + HEAD := TOP_FOOT_SIZE];
    RecordPushed(m', c, base, size);
  }

  /** The words of the new record, of the old one's copy, and of all others. */
  lemma RecordPushed(m: Mem, c: int, base: int, size: int)
    requires c + RECORD_SIZE <= SEG || SEG + 32 <= c
    ensures var n := NewRecord(m, c, base, size);
      && AddedRecords(m, n, c + 16, base, size) && Rd(n, c + HEAD) == RECORD_SIZE + PINUSE_BIT + CINUSE_BIT
      && forall w {:trigger Rd(n, w)} :: !(SEG <= w < SEG + 32) && !(c + HEAD <= w < c + RECORD_SIZE) ==> Rd(n, w) == Rd(m, w)
  {
  }

  lemma FencedTags(m: Mem, l: Mem, n: Mem, a: int, c: int, hi: int, base: int, size: int)
    requires AddPlaces(a, c, hi, base, size) && Fenced(AddWrites(m, c, base, size), l, c + RECORD_SIZE, hi)
    requires n == if c != a then SetFree(l, a, c - a, c) else l
    ensures AddedTags(n, a, c, base, size) && AddedRecords(m, n, c + 16, base, size)
  {
    hide AddWrites;
    PushedWords(m, c, base, size, a, hi);
    var k := AddWrites(m, c, base, size);
    assert Rd(l, base + HEAD) == Rd(k, base + HEAD);
    assert Rd(l, base + size - TOP_FOOT_SIZE + HEAD) == Rd(k, base + size - TOP_FOOT_SIZE + HEAD);
    assert Rd(l, c + HEAD) == Rd(k, c + HEAD);
    assert AddedRecords(m, l, c + 16, base, size);
    assert ClearPinuse(RECORD_SIZE + PINUSE_BIT + CINUSE_BIT) == RECORD_SIZE + CINUSE_BIT;
  }

  // ----- prepend_alloc as a whole

  /** A bin operation while the records already describe the extended segment. */
  lemma ReboundAgain(m: Mem, n: Mem, ck: Chunks, segs: seq<Segment>, t: seq<Segment>)
    requires Shape(ck) && Records(ck, segs) && SegList(m, t) && IdleKept(m, n, ck) && segs != []
    requires |t| == |segs| && forall i | 0 <= i < |segs| :: t[i].rec == segs[i].rec
    ensures SegList(n, t)
  {
    hide Shape, Records, SegList, Idle;
    forall i, w | 1 <= i < |t| && t[i].rec <= w < t[i].rec + 32 ensures Rd(n, w) == Rd(m, w) {
      RecordIdle(ck, segs, i, w);
    }
    forall w | SEG <= w < SEG + 32 ensures Rd(n, w) == Rd(m, w) {
      StateIdle(ck, w);
    }
    FirstRecord(ck, segs);
    SegListFrame(m, n, t);
  }

  lemma IdleWord(m: Mem, n: Mem, ck: Chunks, w: int)
    requires IdleKept(m, n, ck) && Idle(ck, w)
    ensures Rd(n, w) == Rd(m, w)
  {
  }

  /** What prepend_alloc reads of the chunk that used to be the first of the segment. */
  ghost predicate FirstRead(m: Mem, ck: Chunks, x: int, sz: map<int, int>, dv: int, dvsize: int, top: int,
                            topsize: int) {
    && x in ck && ck[x].prev == 0 && (x == top <==> ck[x].kind == Top) && (x == top ==> ck[x].size == topsize)
    && (IsInUse(Rd(m, x + HEAD)) <==> ck[x].kind != Free && ck[x].kind != Top)
    && (ck[x].kind == Free ==> ChunkSize(Rd(m, x + HEAD)) == ck[x].size)
    && (ck[x].kind == Free && x != dv ==> x in sz && sz[x] == ck[x].size)
    && (ck[x].kind == Free && x == dv ==> x !in sz && dvsize == ck[x].size)
    && (ck[x].kind != Free ==> x !in sz && x != dv)
  }

  lemma FirstKnown(m: Mem, smallmap: bv32, treemap: bv32, b: Bins, ck: Chunks, segs: seq<Segment>, least: int, k: nat,
                   sz: map<int, int>, dv: int, dvsize: int, top: int, topsize: int)
    requires Held(m, smallmap, treemap, b, ck, least) && Settled(sz, ck, segs, dv, dvsize, top, topsize)
    requires LayoutOk(ck, segs) && k < |segs|
    ensures FirstRead(m, ck, segs[k].base, sz, dv, dvsize, top, topsize)
  {
    hide Held, LayoutOk, Shape, Seats, Records, HeadWord, Coalesced, BinsReady;
    HeldParts(m, smallmap, treemap, b, ck, least);
    LayoutParts(ck, segs);
    assert Based(ck, segs[k]) by { BasedAt(ck, segs, k); }
    var x := segs[k].base;
    ChunkIn(ck, x);
    assert TagOk(m, x, ck[x]);
    HeadBits(x, ck[x]);
    NotNull(ck);
    if ck[x].kind == Top {
      OnlyTop(ck, segs, x, top);
    }
  }

  /** The block in front of the extended segment has been granted. */
  lemma FrontGranted(l: Mem, m: Mem, m': Mem, m3: Mem, n: Mem, n': Mem, ck: Chunks, d: Chunks, e: Chunks, base: int,
                     q: int, nb: int, s: int)
    requires BlocksKept(l, m, LiveOf(ck)) && PayloadsKept(m, m', ck) && BlocksKept(m', m3, LiveOf(ck))
    requires BlocksKept(m3, n, LiveOf(e)) && (n' == n || PayloadsKept(n, n', e)) && q != base
    requires LiveOf(d) == LiveOf(ck)[base := nb][q := s] && base !in LiveOf(ck) && q !in LiveOf(ck)
    requires LiveOf(e) == LiveOf(d) - {q}
    requires nb > 0 && base > 0 && base % 16 == 0
    ensures Granted(l, ck, n', e, base + 16, nb)
  {
    hide BlocksKept, PayloadsKept, LiveOf;
    LiveInLive(ck);
    LiveInLive(e);
    assert LiveOf(e) == LiveOf(ck)[base := nb];
    KeptBlocks(m, m', ck, LiveOf(ck));
    BlocksTwice(l, m, m', LiveOf(ck));
    BlocksTwice(l, m', m3, LiveOf(ck));
    FewerBlocks(m3, n, LiveOf(e), LiveOf(ck));
    BlocksTwice(l, m3, n, LiveOf(ck));
    if n' != n {
      KeptBlocks(n, n', e, LiveOf(ck));
      BlocksTwice(l, n, n', LiveOf(ck));
    }
  }

  lemma FewerBlocks(m: Mem, n: Mem, live: map<int, int>, few: map<int, int>)
    requires BlocksKept(m, n, live) && forall a | a in few :: a in live && live[a] == few[a]
    ensures BlocksKept(m, n, few)
  {
    forall a, w | a in few && a + 16 <= w < a + few[a] + 8 ensures Rd(n, w) == Rd(m, w) {
      assert a in live;
    }
  }

  /** How extending a segment downwards begins. */
  lemma FrontBegin(m: Mem, smallmap: bv32, treemap: bv32, b: Bins, ck: Chunks, segs: seq<Segment>, least: int, k: nat,
                   base: int, size: int, nb: int,
                   dv: int, dvsize: int, top: int, topsize: int)
    requires CanFront(segs, k, base, size, nb)
    requires Loose(m, smallmap, treemap, b, ck, segs, least) && Settled(b.sz, ck, segs, dv, dvsize, top, topsize)
    ensures var sp := segs[k].rec;
      var n := SetSizeOfInuse(m[sp := base][sp + SEG_SIZE := size + segs[k].size], base, nb);
      && Held(n, smallmap, treemap, b, ck, least) && BlocksKept(m, n, LiveOf(ck))
      && SegList(n, Rebound(segs, k, base, size + segs[k].size))
      && Rd(n, base + HEAD) == nb + PINUSE_BIT + CINUSE_BIT && Idle(ck, base + HEAD)
      && Rd(m, sp) == segs[k].base && Rd(m, sp + SEG_SIZE) == segs[k].size
    ensures LayoutOk(ck, segs) && Regions(segs) && base % 16 == 0 && segs[k].base % 16 == 0 && base > 0
    ensures |Rebound(segs, k, base, size + segs[k].size)| == |segs|
  {
    hide Loose, Held, LayoutOk, Settled, SegList, Regions, Usable, Outside, Idle, BlocksKept, LiveOf, SetSizeOfInuse;
    FrontStart(m, smallmap, treemap, b, ck, segs, least, k, base, size, nb);
    LooseHeld(m, smallmap, treemap, b, ck, segs, least);
    ListWords(m, segs, k);
    SixteenUsable(base, size);
  }

  lemma SixteenUsable(base: int, size: int)
    requires Usable(base, size)
    ensures base % 16 == 0 && size % 16 == 0 && (base + size) % 16 == 0 && base > 0
  {
  }

  /** The segment's record is extended and the block marked; `z0` were the bins when it began. */
  ghost predicate Fronted(l: Mem, m: Mem, smallmap: bv32, treemap: bv32, b: Bins, ck: Chunks, segs: seq<Segment>,
                          least: int, k: nat, base: int, size: int, nb: int,
                          z0: map<int, int>, dv: int, dvsize: int, top: int, topsize: int) {
    && CanFront(segs, k, base, size, nb) && least <= base && RegionOk(base, size)
    && Held(m, smallmap, treemap, b, ck, least) && LayoutOk(ck, segs) && Regions(segs)
    && SegList(m, Rebound(segs, k, base, size + segs[k].size))
    && Rd(m, base + HEAD) == nb + PINUSE_BIT + CINUSE_BIT && Idle(ck, base + HEAD)
    && Settled(z0, ck, segs, dv, dvsize, top, topsize)
    && BlocksKept(l, m, LiveOf(ck)) && base > 0 && base % 16 == 0
  }

  lemma FrontedRead(l: Mem, m: Mem, smallmap: bv32, treemap: bv32, b: Bins, ck: Chunks, segs: seq<Segment>, least: int,
                    k: nat, base: int, size: int, nb: int,
                    dv: int, dvsize: int, top: int, topsize: int)
    requires Fronted(l, m, smallmap, treemap, b, ck, segs, least, k, base, size, nb, b.sz, dv, dvsize, top, topsize)
    ensures FirstRead(m, ck, base + size, b.sz, dv, dvsize, top, topsize) && Held(m, smallmap, treemap, b, ck, least)
    ensures size - nb >= MIN_CHUNK_SIZE
  {
    hide Held, LayoutOk, Settled, SegList, Regions, Usable, Outside, Idle, BlocksKept, LiveOf, FirstRead, RegionOk,
         Rebound;
    FirstKnown(m, smallmap, treemap, b, ck, segs, least, k, b.sz, dv, dvsize, top, topsize);
  }

  /** The first chunk has left its bin. */
  lemma FrontedLater(l: Mem, m: Mem, smallmap: bv32, treemap: bv32, b: Bins, m': Mem, smallmap': bv32, treemap': bv32,
                     b': Bins,
                     ck: Chunks, segs: seq<Segment>, least: int, k: nat, base: int, size: int, nb: int,
                     z0: map<int, int>, dv: int, dvsize: int, top: int, topsize: int)
    requires Fronted(l, m, smallmap, treemap, b, ck, segs, least, k, base, size, nb, z0, dv, dvsize, top, topsize)
    requires Held(m', smallmap', treemap', b', ck, least) && PayloadsKept(m, m', ck) && IdleKept(m, m', ck)
    ensures Fronted(l, m', smallmap', treemap', b', ck, segs, least, k, base, size, nb, z0, dv, dvsize, top, topsize)
  {
    hide Held, LayoutOk, Settled, SegList, Regions, Usable, Outside, Idle, BlocksKept, LiveOf, RegionOk, IdleKept,
         PayloadsKept, Shape, Records;
    HeldParts(m, smallmap, treemap, b, ck, least);
    OkRecords(ck, segs);
    ReboundAgain(m, m', ck, segs, Rebound(segs, k, base, size + segs[k].size));
    IdleWord(m, m', ck, base + HEAD);
    LiveInLive(ck);
    KeptBlocks(m, m', ck, LiveOf(ck));
    BlocksTwice(l, m, m', LiveOf(ck));
  }

  lemma OkRecords(ck: Chunks, segs: seq<Segment>)
    requires LayoutOk(ck, segs)
    ensures Records(ck, segs)
  {
    hide Shape, Seats, Records;
  }

  /** What is left of the region is freed: here its end is before chunk `next`, which is merged with if it is free or
      the top. */
  ghost predicate RestWrites(m: Mem, n: Mem, ck: Chunks, q: int, next: int, s: int, topsize: int)
    requires next in ck
  {
    if ck[next].kind == Top then s == topsize + (next - q) && n == m[q + HEAD := s + PINUSE_BIT]
    else if ck[next].kind == Free then
      s == next - q + ck[next].size && (n == SetSizeOfFree(m, q, s) || n == SetFree(m, q, s, next + ck[next].size))
    else s == next - q && n == SetFree(m, q, s, next)
  }

  /** How things stand after that. */
  ghost predicate Rested(l: Mem, n: Mem, smallmap: bv32, treemap: bv32, b: Bins, ck: Chunks, e: Chunks,
                         t: seq<Segment>, least: int, base: int, nb: int,
                         q: int, s: int, k: Kind, sz': map<int, int>, dv': int, dvsize': int, top': int,
                         topsize': int) {
    && Loose(n, smallmap, treemap, b, e, t, least) && Settled(sz', e, t, dv', dvsize', top', topsize')
    && Granted(l, ck, n, e, base + 16, nb) && q in e && e[q] == Chunk(s, k, 0) && q !in b.sz
  }

  /** The same, in terms of what was before; `x` is the kind of the chunk that was first. */
  ghost predicate RestDone(l: Mem, n: Mem, smallmap: bv32, treemap: bv32, b: Bins, ck: Chunks, segs: seq<Segment>,
                           least: int, k: nat, base: int, size: int, nb: int,
                           s: int, x: Kind, dv: int, dvsize: int, top: int, topsize: int) {
    var q, next, d := base + nb, base + size, FrontLayout(ck, base, size, nb);
    && q in d && RunBase(d, q) in d && k < |segs|
    && Rested(l, n, smallmap, treemap, b, ck, Freed(d, q), Rebound(segs, k, base, size + segs[k].size),
              least, base, nb, q, s, if x == Top then Top else Free,
              if x == Top || (x == Free && dv == next) then b.sz else b.sz[q := s],
              if x == Free && dv == next then q else dv, if x == Free && dv == next then s else dvsize,
              if x == Top then q else top, if x == Top then s else topsize)
  }

  lemma Rest(l: Mem, m: Mem, n: Mem, smallmap: bv32, treemap: bv32, b: Bins, ck: Chunks, segs: seq<Segment>,
             least: int, k: nat, base: int, size: int, nb: int,
             z0: map<int, int>, dv: int, dvsize: int, top: int, topsize: int, s: int)
    requires base + size in ck && RestWrites(m, n, ck, base + nb, base + size, s, topsize)
    requires Fronted(l, m, smallmap, treemap, b, ck, segs, least, k, base, size, nb, z0, dv, dvsize, top, topsize)
    requires b.sz == z0 - {base + size}
    ensures RestDone(l, n, smallmap, treemap, b, ck, segs, least, k, base, size, nb, s, ck[base + size].kind, dv,
                     dvsize, top, topsize)
  {
    hide Held, LayoutOk, Loose, Settled, SegList, Regions, Usable, Outside, Idle, BlocksKept, LiveOf, RegionOk,
         PayloadsKept, FrontLayout, Rebound, Freed, RunBase,
         SetFree, SetSizeOfFree, SetSizeOfInuse, Merging, Granted;
    FrontReady(m, smallmap, treemap, b, ck, segs, least, k, base, size, nb, z0, dv, dvsize, top, topsize);
    var q, next, d, t := base + nb, base + size, FrontLayout(ck, base, size, nb), Rebound(segs, k, base, size + segs[k].size);
    var m3 := SetSizeOfInuse(m, q, size - nb);
    RestApart(ck, segs, z0, dv, dvsize, top, topsize, q, next);
    PhantomFree(m, q, size - nb, s, next);
    if ck[next].kind == Top {
      EndTop(m3, m3, n, smallmap, treemap, b, d, t, least, q, q, next, s, z0, dv, dvsize, top, topsize);
    } else if ck[next].kind == Free {
      PhantomFree(m, q, size - nb, s, next + ck[next].size);
      EndFree(m3, m3, n, smallmap, treemap, b, d, t, least, q, q, next, s, z0, dv, dvsize, top, topsize);
    } else {
      EndUsed(m3, m3, n, smallmap, treemap, b, d, t, least, q, q, next, s, z0, dv, dvsize, top, topsize);
    }
    KeptSelf(m, ck);
    FrontGranted(l, m, m, m3, n, n, ck, d, Freed(d, q), base, q, nb, size - nb);
  }

  /** The layout after prepend_alloc. */
  ghost function RestLayout(ck: Chunks, base: int, size: int, nb: int): Chunks {
    var d, q := FrontLayout(ck, base, size, nb), base + nb;
    if q in d && RunBase(d, q) in d then Freed(d, q) else d
  }

  lemma RestFirst(l: Mem, m: Mem, smallmap: bv32, treemap: bv32, b: Bins, ck: Chunks, segs: seq<Segment>, least: int,
                  k: nat, base: int, size: int, nb: int,
                  z0: map<int, int>, dv: int, dvsize: int, top: int, topsize: int)
    requires Fronted(l, m, smallmap, treemap, b, ck, segs, least, k, base, size, nb, z0, dv, dvsize, top, topsize)
    ensures FirstRead(m, ck, base + size, z0, dv, dvsize, top, topsize)
  {
    hide Held, LayoutOk, Settled, SegList, Regions, Usable, Outside, Idle, BlocksKept, LiveOf, FirstRead, RegionOk,
         Rebound;
    FirstKnown(m, smallmap, treemap, b, ck, segs, least, k, z0, dv, dvsize, top, topsize);
  }

  /** The rest of the region becomes the front of the top. */
  lemma RestTop(l: Mem, m: Mem, n: Mem, smallmap: bv32, treemap: bv32, b: Bins, ck: Chunks, segs: seq<Segment>,
                least: int, k: nat, base: int, size: int, nb: int,
                z0: map<int, int>, dv: int, dvsize: int, top: int, topsize: int, s: int)
    requires base + size == top && s == topsize + (size - nb) && n == m[base + nb + HEAD := s + PINUSE_BIT]
    requires Fronted(l, m, smallmap, treemap, b, ck, segs, least, k, base, size, nb, z0, dv, dvsize, top, topsize)
    requires b.sz == z0
    ensures k < |segs| && Rested(l, n, smallmap, treemap, b, ck, RestLayout(ck, base, size, nb),
          Rebound(segs, k, base, size + segs[k].size), least, base, nb,
                   base + nb, s, Top, b.sz, dv, dvsize, base + nb, s)
  {
    hide Fronted, Rested, Freed, RunBase, FrontLayout, Rebound, SetFree, SetSizeOfFree;
    RestFirst(l, m, smallmap, treemap, b, ck, segs, least, k, base, size, nb, z0, dv, dvsize, top, topsize);
    Rest(l, m, n, smallmap, treemap, b, ck, segs, least, k, base, size, nb, z0, dv, dvsize, top, topsize, s);
  }

  /** The rest of the region becomes the front of the designated victim. */
  lemma RestDv(l: Mem, m: Mem, n: Mem, smallmap: bv32, treemap: bv32, b: Bins, ck: Chunks, segs: seq<Segment>,
               least: int, k: nat, base: int, size: int, nb: int,
               z0: map<int, int>, dv: int, dvsize: int, top: int, topsize: int, s: int)
    requires base + size == dv && base + size != top && s == dvsize + (size - nb) && n == SetSizeOfFree(m, base + nb, s)
    requires Fronted(l, m, smallmap, treemap, b, ck, segs, least, k, base, size, nb, z0, dv, dvsize, top, topsize)
    requires b.sz == z0
    ensures k < |segs| && Rested(l, n, smallmap, treemap, b, ck, RestLayout(ck, base, size, nb),
          Rebound(segs, k, base, size + segs[k].size), least, base, nb,
                   base + nb, s, Free, b.sz, base + nb, s, top, topsize)
  {
    hide Fronted, Rested, Freed, RunBase, FrontLayout, Rebound, SetFree, SetSizeOfFree;
    RestFirst(l, m, smallmap, treemap, b, ck, segs, least, k, base, size, nb, z0, dv, dvsize, top, topsize);
    Rest(l, m, n, smallmap, treemap, b, ck, segs, least, k, base, size, nb, z0, dv, dvsize, top, topsize, s);
  }

  /** The rest of the region, with the chunk that was first if that is free, is to be binned. */
  lemma RestBin(l: Mem, m: Mem, n: Mem, smallmap: bv32, treemap: bv32, b: Bins, ck: Chunks, segs: seq<Segment>,
                least: int, k: nat, base: int, size: int, nb: int,
                z0: map<int, int>, dv: int, dvsize: int, top: int, topsize: int, s: int)
    requires base + size != dv && base + size != top && base + size in ck
    requires var next := base + size;
      && s == size - nb + (if ck[next].kind == Free then ck[next].size else 0)
      && n == SetFree(m, base + nb, s, if ck[next].kind == Free then next + ck[next].size else next)
    requires Fronted(l, m, smallmap, treemap, b, ck, segs, least, k, base, size, nb, z0, dv, dvsize, top, topsize)
    requires b.sz == z0 - {base + size}
    ensures k < |segs| && Rested(l, n, smallmap, treemap, b, ck, RestLayout(ck, base, size, nb),
          Rebound(segs, k, base, size + segs[k].size), least, base, nb,
                   base + nb, s, Free, b.sz[base + nb := s], dv, dvsize, top, topsize)
  {
    hide Fronted, Rested, Freed, RunBase, FrontLayout, Rebound, SetFree, SetSizeOfFree;
    RestFirst(l, m, smallmap, treemap, b, ck, segs, least, k, base, size, nb, z0, dv, dvsize, top, topsize);
    Rest(l, m, n, smallmap, treemap, b, ck, segs, least, k, base, size, nb, z0, dv, dvsize, top, topsize, s);
  }

  lemma RestApart(ck: Chunks, segs: seq<Segment>, sz: map<int, int>, dv: int, dvsize: int, top: int, topsize: int,
                  q: int, next: int)
    requires q > 0 && q < next && next in ck
    requires LayoutOk(ck, segs) && Settled(sz, ck, segs, dv, dvsize, top, topsize)
    ensures dv == next ==> ck[next].kind == Free
    ensures q !in ck ==> dv != q
    ensures q != next + ck[next].size
  {
    hide LayoutOk, Shape;
    OkShape(ck, segs);
    SizePositive(ck, next);
    SettledDv(sz, ck, segs, dv, dvsize, top, topsize, q, next);
  }

  lemma SettledDv(sz: map<int, int>, ck: Chunks, segs: seq<Segment>, dv: int, dvsize: int, top: int, topsize: int,
                  q: int, next: int)
    requires Settled(sz, ck, segs, dv, dvsize, top, topsize)
    ensures next in ck && dv == next && dv != 0 ==> ck[next].kind == Free
    ensures q !in ck && q != 0 ==> dv != q
  {
  }
}
