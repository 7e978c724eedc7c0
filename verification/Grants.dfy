/** The ways in which a request is granted: a whole free chunk, the front of one, the front of the top. */
module Grants {
  import opened Memory
  import opened Bits
  import opened Bins
  import opened BinSteps
  import opened BinMap
  import opened Tries
  import opened BestFit
  import opened Layout
  import opened Segments
  import opened Tags
  import opened Moves
  import opened Retags
  import opened Invariant

  // ----- What the layouts keep

  lemma TakeFacts(ck: Chunks, p: int)
    requires Shape(ck) && Coalesced(ck) && p in ck && ck[p].kind == Free && p + ck[p].size in ck
    ensures var d := Take(ck, p);
      && Coalesced(d) && p !in LiveOf(ck) && LiveOf(d) == LiveOf(ck)[p := ck[p].size] && FreeOf(d) == FreeOf(ck) - {p}
      && ck[p].prev == 0 && p in d && d[p].kind == Live && d[p].size == ck[p].size
  {
    hide Shape;
    SizePositive(ck, p);
    NextIn(ck, p);
  }

  lemma SplitFacts(ck: Chunks, p: int, s: int)
    requires Shape(ck) && Coalesced(ck) && CanSplit(ck, p, s) && p + ck[p].size in ck && p + s !in ck
    ensures var d, r := Split(ck, p, s), p + s;
      && Coalesced(d) && p !in LiveOf(ck) && LiveOf(d) == LiveOf(ck)[p := s]
      && FreeOf(d) == (FreeOf(ck) - {p})[r := ck[p].size - s] && ck[p].prev == 0
      && p in d && d[p].kind == Live && d[p].size == s && r in d && d[r].kind == Free && d[r].size == ck[p].size - s
  {
    hide Shape;
    NextIn(ck, p);
  }

  lemma CutTopFacts(ck: Chunks, p: int, s: int)
    requires Coalesced(ck) && CanCutTop(ck, p, s) && p + s !in ck
    ensures var d := CutTop(ck, p, s);
      && Coalesced(d) && p !in LiveOf(ck) && LiveOf(d) == LiveOf(ck)[p := s] && FreeOf(d) == FreeOf(ck)
      && ck[p].prev == 0
      && p in d && d[p].kind == Live && d[p].size == s && p + s in d && d[p + s] == Chunk(ck[p].size - s, Top, 0)
  {
  }

  lemma Address(ck: Chunks, p: int)
    requires Shape(ck) && p in ck
    ensures p > 0 && p % 16 == 0 && (p + 16) % 16 == 0
  {
    hide Shape;
    ChunkIn(ck, p);
  }

  /** The new block and the old ones. */
  lemma Grant(m: Mem, ck: Chunks, n: Mem, d: Chunks, p: int, nb: int)
    requires Shape(d) && PayloadsKept(m, n, d) && p in d && d[p].kind == Live && nb <= d[p].size < nb + MIN_CHUNK_SIZE
    requires p !in LiveOf(ck) && LiveOf(d) == LiveOf(ck)[p := d[p].size]
    ensures Granted(m, ck, n, d, p + 16, nb)
  {
    hide Shape, LiveOf;
    Address(d, p);
    InLive(d);
    InLive(ck);
    KeptBlocks(m, n, d, LiveOf(ck));
  }

  lemma InLive(ck: Chunks)
    ensures forall a | a in LiveOf(ck) :: a in ck && ck[a].kind == Live && ck[a].size == LiveOf(ck)[a]
  {
  }

  lemma SplitAbove(ck: Chunks, p: int, s: int, least: int)
    requires CanSplit(ck, p, s) && AboveLeast(ck, least) && p + ck[p].size in ck
    ensures AboveLeast(Split(ck, p, s), least)
  {
  }

  // ----- Whole chunks

  lemma TakeKeeps(ck: Chunks, sz: map<int, int>, p: int, least: int)
    requires p in ck && p + ck[p].size in ck && AboveLeast(ck, least) && FreeIn(ck, sz) && p !in sz
    ensures AboveLeast(Take(ck, p), least) && FreeIn(Take(ck, p), sz)
  {
  }

  /** A free chunk that is in no bin becomes a live block. */
  lemma TookWhole(m: Mem, smallmap: bv32, treemap: bv32, b: Bins, ck: Chunks, segs: seq<Segment>, least: int, p: int,
                  nb: int)
    requires Loose(m, smallmap, treemap, b, ck, segs, least) && Coalesced(ck)
    requires p in ck && ck[p].kind == Free && p !in b.sz && nb <= ck[p].size < nb + MIN_CHUNK_SIZE
    ensures p + ck[p].size in ck
    ensures var n, d := SetInuseAndPinuse(m, p, ck[p].size), Take(ck, p);
      && Loose(n, smallmap, treemap, b, d, segs, least)
      && Coalesced(d) && FreeOf(d) == FreeOf(ck) - {p} && Granted(m, ck, n, d, p + 16, nb)
  {
    hide LayoutOk, Shape, Records, Tagged, SegList, Regions, BinsReady, OnlyTags, Loose, SetInuseAndPinuse, Granted,
         Coalesced, LiveOf, FreeOf, PayloadsKept, Take, AboveLeast, FreeIn;
    LooseParts(m, smallmap, treemap, b, ck, segs, least);
    TakeOk(ck, segs, p);
    var d := Take(ck, p);
    LayoutParts(d, segs);
    TakeFacts(ck, p);
    TakeTags(m, ck, p);
    TakeKeeps(ck, b.sz, p, least);
    TagStep(m, SetInuseAndPinuse(m, p, ck[p].size), smallmap, treemap, b, ck, d, segs, least);
    Grant(m, ck, SetInuseAndPinuse(m, p, ck[p].size), d, p, nb);
  }

  /** The front of a free chunk that is in no bin becomes a live block. */
  lemma TookFront(m: Mem, smallmap: bv32, treemap: bv32, b: Bins, ck: Chunks, segs: seq<Segment>, least: int, p: int,
                  nb: int)
    requires Loose(m, smallmap, treemap, b, ck, segs, least) && Coalesced(ck)
    requires CanSplit(ck, p, nb) && p !in b.sz
    ensures p + ck[p].size in ck
    ensures var n, d := SetSizeOfFree(SetSizeOfInuse(m, p, nb), p + nb, ck[p].size - nb), Split(ck, p, nb);
      && Loose(n, smallmap, treemap, b, d, segs, least)
      && Coalesced(d) && FreeOf(d) == (FreeOf(ck) - {p})[p + nb := ck[p].size - nb] && Granted(m, ck, n, d, p + 16, nb)
      && p + nb in d && d[p + nb].kind == Free && d[p + nb].size == ck[p].size - nb && p + nb !in b.sz
  {
    hide LayoutOk, Shape, Records, Tagged, SegList, Regions, BinsReady, OnlyTags, Loose, SetSizeOfFree, SetSizeOfInuse,
         Granted, Coalesced, LiveOf, FreeOf, PayloadsKept, Split, AboveLeast;
    LooseParts(m, smallmap, treemap, b, ck, segs, least);
    SplitOk(ck, segs, p, nb);
    var d := Split(ck, p, nb);
    LayoutParts(d, segs);
    SplitFacts(ck, p, nb);
    SplitTags(m, ck, p, nb);
    SplitAbove(ck, p, nb, least);
    SplitFreeIn(ck, b.sz, p, nb);
    var n := SetSizeOfFree(SetSizeOfInuse(m, p, nb), p + nb, ck[p].size - nb);
    TagStep(m, n, smallmap, treemap, b, ck, d, segs, least);
    Grant(m, ck, n, d, p, nb);
  }

  lemma SplitFreeIn(ck: Chunks, sz: map<int, int>, p: int, s: int)
    requires FreeIn(ck, sz) && CanSplit(ck, p, s) && p !in sz && p + ck[p].size in ck && p + s !in ck
    ensures FreeIn(Split(ck, p, s), sz)
  {
  }

  lemma CutTopAbove(ck: Chunks, sz: map<int, int>, p: int, s: int, least: int)
    requires CanCutTop(ck, p, s) && AboveLeast(ck, least) && FreeIn(ck, sz) && p + s !in ck
    ensures AboveLeast(CutTop(ck, p, s), least) && FreeIn(CutTop(ck, p, s), sz)
  {
  }

  /** The front of the top becomes a live block. */
  lemma TookTop(m: Mem, smallmap: bv32, treemap: bv32, b: Bins, ck: Chunks, segs: seq<Segment>, least: int, p: int,
                nb: int)
    requires Loose(m, smallmap, treemap, b, ck, segs, least) && Coalesced(ck) && CanCutTop(ck, p, nb)
    ensures var n, d := SetSizeOfInuse(m[p + nb + HEAD := ck[p].size - nb + PINUSE_BIT], p, nb), CutTop(ck, p, nb);
      && Loose(n, smallmap, treemap, b, d, segs, least)
      && Coalesced(d) && FreeOf(d) == FreeOf(ck) && Granted(m, ck, n, d, p + 16, nb)
      && p + nb in d && d[p + nb] == Chunk(ck[p].size - nb, Top, 0)
  {
    hide LayoutOk, Shape, Records, Tagged, SegList, Regions, BinsReady, OnlyTags, Loose, SetSizeOfInuse, Granted,
         Coalesced, LiveOf, FreeOf, PayloadsKept, CutTop, AboveLeast, FreeIn;
    LooseParts(m, smallmap, treemap, b, ck, segs, least);
    CutTopOk(ck, segs, p, nb);
    var d := CutTop(ck, p, nb);
    LayoutParts(d, segs);
    CutTopFacts(ck, p, nb);
    CutTopTags(m, ck, p, nb);
    CutTopAbove(ck, b.sz, p, nb, least);
    var n := SetSizeOfInuse(m[p + nb + HEAD := ck[p].size - nb + PINUSE_BIT], p, nb);
    TagStep(m, n, smallmap, treemap, b, ck, d, segs, least);
    Grant(m, ck, n, d, p, nb);
  }

  // ----- Settling the bins, the designated victim and the top again

  /** A binned chunk was taken whole. */
  lemma TakenSettled(sz: map<int, int>, sz': map<int, int>, ck: Chunks, segs: seq<Segment>, dv: int, dvsize: int,
                     top: int, topsize: int, p: int)
    requires Settled(sz, ck, segs, dv, dvsize, top, topsize) && Shape(ck) && p in sz && p in ck && ck[p].kind == Free
    requires p + ck[p].size in ck
    requires sz' == sz - {p} && Coalesced(Take(ck, p)) && FreeOf(Take(ck, p)) == FreeOf(ck) - {p}
    ensures Settled(sz', Take(ck, p), segs, dv, dvsize, top, topsize)
  {
    hide Shape, Coalesced, FreeOf;
    assert dv != p;
    TakeTop(ck, segs, top, topsize, p);
    TakeDv(ck, dv, dvsize, p);
  }

  lemma TakeTop(ck: Chunks, segs: seq<Segment>, top: int, topsize: int, p: int)
    requires TopOk(ck, segs, top, topsize) && p in ck && ck[p].kind == Free && p + ck[p].size in ck
    ensures TopOk(Take(ck, p), segs, top, topsize)
  {
  }

  lemma TakeDv(ck: Chunks, dv: int, dvsize: int, p: int)
    requires DvOk(ck, dv, dvsize) && p in ck && p + ck[p].size in ck && p != dv
    ensures DvOk(Take(ck, p), dv, dvsize)
  {
  }

  /** The designated victim was taken whole. */
  lemma DvTakenSettled(sz: map<int, int>, ck: Chunks, segs: seq<Segment>, dv: int, dvsize: int, top: int, topsize: int)
    requires Settled(sz, ck, segs, dv, dvsize, top, topsize) && dv != 0 && 0 !in ck && dv + ck[dv].size in ck
    requires Coalesced(Take(ck, dv)) && FreeOf(Take(ck, dv)) == FreeOf(ck) - {dv}
    ensures Settled(sz, Take(ck, dv), segs, 0, 0, top, topsize)
  {
    hide Coalesced;
    TakeTop(ck, segs, top, topsize, dv);
    assert 0 !in FreeOf(ck);
  }

  lemma SplitTop(ck: Chunks, segs: seq<Segment>, top: int, topsize: int, p: int, s: int)
    requires TopOk(ck, segs, top, topsize) && CanSplit(ck, p, s) && p + ck[p].size in ck && p + s !in ck
    ensures TopOk(Split(ck, p, s), segs, top, topsize)
  {
  }

  lemma SplitDv(ck: Chunks, dv: int, dvsize: int, p: int, s: int)
    requires DvOk(ck, dv, dvsize) && CanSplit(ck, p, s) && p + ck[p].size in ck && p + s !in ck && p != dv
    ensures DvOk(Split(ck, p, s), dv, dvsize)
  {
  }

  /** A binned chunk was split and the rest binned. */
  lemma SplitSettled(sz: map<int, int>, sz': map<int, int>, ck: Chunks, segs: seq<Segment>, dv: int, dvsize: int,
                     top: int, topsize: int, p: int, s: int)
    requires Settled(sz, ck, segs, dv, dvsize, top, topsize) && p in sz && CanSplit(ck, p, s) && p + ck[p].size in ck
    requires p + s !in ck
    requires sz' == (sz - {p})[p + s := ck[p].size - s] && Coalesced(Split(ck, p, s)) && p + s > 0
    requires FreeOf(Split(ck, p, s)) == (FreeOf(ck) - {p})[p + s := ck[p].size - s]
    ensures Settled(sz', Split(ck, p, s), segs, dv, dvsize, top, topsize)
  {
    hide Coalesced, FreeOf, Split;
    assert dv != p && dv != p + s;
    SplitTop(ck, segs, top, topsize, p, s);
    SplitDv(ck, dv, dvsize, p, s);
  }

  /** A binned chunk was split, and the rest has replaced the designated victim. */
  lemma SplitNewDv(sz: map<int, int>, sz': map<int, int>, ck: Chunks, segs: seq<Segment>, dv: int, dvsize: int,
                   top: int, topsize: int, p: int, s: int)
    requires Settled(sz, ck, segs, dv, dvsize, top, topsize) && p in sz && CanSplit(ck, p, s) && p + ck[p].size in ck
    requires p + s !in ck
    requires sz' == (if dvsize != 0 then (sz - {p})[dv := dvsize] else sz - {p}) && Coalesced(Split(ck, p, s))
    requires p + s > 0
    requires FreeOf(Split(ck, p, s)) == (FreeOf(ck) - {p})[p + s := ck[p].size - s] && 0 !in ck
    ensures Settled(sz', Split(ck, p, s), segs, p + s, ck[p].size - s, top, topsize)
  {
    hide Coalesced, Split;
    var d := Split(ck, p, s);
    assert p + s !in FreeOf(ck) && 0 !in FreeOf(ck) && p != dv;
    SplitTop(ck, segs, top, topsize, p, s);
    assert DvOk(d, p + s, ck[p].size - s) by { SplitRest(ck, p, s); }
    assert dv != 0 ==> dv in FreeOf(ck) && FreeOf(ck)[dv] == dvsize;
    assert FreeOf(d) - {p + s} == FreeOf(ck) - {p};
    assert sz' == FreeOf(ck) - {p};
  }

  lemma SplitRest(ck: Chunks, p: int, s: int)
    requires CanSplit(ck, p, s) && p + ck[p].size in ck && p + s !in ck
    ensures var d, r := Split(ck, p, s), p + s; r in d && d[r] == Chunk(ck[p].size - s, Free, 0)
  {
  }

  /** The designated victim was split. */
  lemma DvSplitSettled(sz: map<int, int>, ck: Chunks, segs: seq<Segment>, dv: int, dvsize: int, top: int, topsize: int,
                       s: int)
    requires Settled(sz, ck, segs, dv, dvsize, top, topsize) && CanSplit(ck, dv, s) && dv + ck[dv].size in ck
    requires dv + s !in ck
    requires Coalesced(Split(ck, dv, s)) && dv + s > 0 && dv > 0
    requires FreeOf(Split(ck, dv, s)) == (FreeOf(ck) - {dv})[dv + s := ck[dv].size - s]
    ensures Settled(sz, Split(ck, dv, s), segs, dv + s, dvsize - s, top, topsize)
  {
    hide Coalesced, Split;
    assert dv + s !in FreeOf(ck);
    SplitTop(ck, segs, top, topsize, dv, s);
    SplitRest(ck, dv, s);
    assert FreeOf(Split(ck, dv, s)) - {dv + s} == FreeOf(ck) - {dv};
  }

  /** The top gave up its front. */
  lemma TopCutSettled(sz: map<int, int>, ck: Chunks, segs: seq<Segment>, dv: int, dvsize: int, top: int, topsize: int,
                      s: int)
    requires Settled(sz, ck, segs, dv, dvsize, top, topsize) && CanCutTop(ck, top, s) && top + s !in ck && segs != []
    requires Coalesced(CutTop(ck, top, s)) && FreeOf(CutTop(ck, top, s)) == FreeOf(ck)
    ensures Settled(sz, CutTop(ck, top, s), segs, dv, dvsize, top + s, topsize - s)
  {
    hide Coalesced, FreeOf;
  }

  // ----- Whole steps, for the operations

  lemma GrantedAfter(l: Mem, m: Mem, ck: Chunks, n: Mem, d: Chunks, r: int, nb: int)
    requires PayloadsKept(l, m, ck) && Granted(m, ck, n, d, r, nb)
    ensures Granted(l, ck, n, d, r, nb)
  {
    hide PayloadsKept, BlocksKept, LiveOf;
    InLive(ck);
    KeptBlocks(l, m, ck, LiveOf(ck));
    BlocksTwice(l, m, n, LiveOf(ck));
  }

  lemma GrantedBefore(m: Mem, ck: Chunks, n: Mem, n': Mem, d: Chunks, r: int, nb: int)
    requires Granted(m, ck, n, d, r, nb) && PayloadsKept(n, n', d)
    ensures Granted(m, ck, n', d, r, nb)
  {
    hide PayloadsKept, BlocksKept, LiveOf;
    InLive(ck);
    InLive(d);
    KeptBlocks(n, n', d, LiveOf(ck));
    BlocksTwice(m, n, n', LiveOf(ck));
  }

  /** The head of `p` follows from its chunk. */
  lemma ReadChunk(m: Mem, ck: Chunks, p: int)
    requires Shape(ck) && Tagged(m, ck) && p in ck && ck[p].kind != Fence
    ensures ChunkSize(Rd(m, p + HEAD)) == ck[p].size
  {
    hide Shape, HeadWord;
    ChunkIn(ck, p);
    assert TagOk(m, p, ck[p]);
    HeadBits(p, ck[p]);
  }

  /** A binned chunk that has just been unlinked is taken whole. */
  lemma WholeStep(m: Mem, smallmap: bv32, treemap: bv32, b0: Bins, b: Bins, ck: Chunks, segs: seq<Segment>, least: int,
                  dv: int, dvsize: int, top: int, topsize: int, p: int, nb: int)
    requires Loose(m, smallmap, treemap, b, ck, segs, least) && Settled(b0.sz, ck, segs, dv, dvsize, top, topsize)
    requires p in b0.sz && b.sz == b0.sz - {p} && p in ck && ck[p].kind == Free
    requires nb <= ck[p].size < nb + MIN_CHUNK_SIZE
    ensures p + ck[p].size in ck
    ensures var n, d := SetInuseAndPinuse(m, p, ck[p].size), Take(ck, p);
      && Loose(n, smallmap, treemap, b, d, segs, least) && Settled(b.sz, d, segs, dv, dvsize, top, topsize)
      && Granted(m, ck, n, d, p + 16, nb)
  {
    hide LayoutOk, Shape, Loose, SetInuseAndPinuse, Granted, Coalesced, FreeOf, Take, DvOk, TopOk;
    assert Shape(ck) by { LooseParts(m, smallmap, treemap, b, ck, segs, least); }
    TookWhole(m, smallmap, treemap, b, ck, segs, least, p, nb);
    TakenSettled(b0.sz, b.sz, ck, segs, dv, dvsize, top, topsize, p);
  }

  lemma DvWholeStep(m: Mem, smallmap: bv32, treemap: bv32, b: Bins, ck: Chunks, segs: seq<Segment>, least: int,
                    dv: int, dvsize: int, top: int, topsize: int, nb: int)
    requires Loose(m, smallmap, treemap, b, ck, segs, least) && Settled(b.sz, ck, segs, dv, dvsize, top, topsize)
    requires 0 < nb <= dvsize < nb + MIN_CHUNK_SIZE
    ensures dv in ck && dv + ck[dv].size in ck
    ensures var n, d := SetInuseAndPinuse(m, dv, dvsize), Take(ck, dv);
      && Loose(n, smallmap, treemap, b, d, segs, least) && Settled(b.sz, d, segs, 0, 0, top, topsize)
      && Granted(m, ck, n, d, dv + 16, nb)
  {
    hide LayoutOk, Shape, Loose, SetInuseAndPinuse, Granted, Coalesced, FreeOf, Take, TopOk;
    assert Shape(ck) by { LooseParts(m, smallmap, treemap, b, ck, segs, least); }
    NotNull(ck);
    TookWhole(m, smallmap, treemap, b, ck, segs, least, dv, nb);
    DvTakenSettled(b.sz, ck, segs, dv, dvsize, top, topsize);
  }

  lemma NotNull(ck: Chunks)
    requires Shape(ck)
    ensures 0 !in ck
  {
    hide Shape;
    if 0 in ck { ChunkIn(ck, 0); }
  }

  lemma DvFrontStep(m: Mem, smallmap: bv32, treemap: bv32, b: Bins, ck: Chunks, segs: seq<Segment>, least: int,
                    dv: int, dvsize: int, top: int, topsize: int, nb: int)
    requires Loose(m, smallmap, treemap, b, ck, segs, least) && Settled(b.sz, ck, segs, dv, dvsize, top, topsize)
    requires nb >= MIN_CHUNK_SIZE && nb % 16 == 0 && dvsize - nb >= MIN_CHUNK_SIZE
    ensures dv in ck && dv + ck[dv].size in ck
    ensures var n, d := SetSizeOfInuse(SetSizeOfFree(m, dv + nb, dvsize - nb), dv, nb), Split(ck, dv, nb);
      && Loose(n, smallmap, treemap, b, d, segs, least) && Settled(b.sz, d, segs, dv + nb, dvsize - nb, top, topsize)
      && Granted(m, ck, n, d, dv + 16, nb)
  {
    hide LayoutOk, Shape, Loose, Granted, Coalesced, FreeOf, Split, TopOk;
    assert Shape(ck) by { LooseParts(m, smallmap, treemap, b, ck, segs, least); }
    NotNull(ck);
    Address(ck, dv);
    TookFront(m, smallmap, treemap, b, ck, segs, least, dv, nb);
    SplitNew(ck, dv, nb);
    DvSplitSettled(b.sz, ck, segs, dv, dvsize, top, topsize, nb);
    WritesCommute(m, dv, nb, dvsize - nb);
  }

  lemma SplitNew(ck: Chunks, p: int, s: int)
    requires Shape(ck) && CanSplit(ck, p, s)
    ensures p + s !in ck
  {
    hide Shape;
    NotInside(ck, p, p + s);
  }

  lemma WritesCommute(m: Mem, p: int, s: int, rest: int)
    requires s >= 32 && rest >= 32
    ensures SetSizeOfInuse(SetSizeOfFree(m, p + s, rest), p, s) == SetSizeOfFree(SetSizeOfInuse(m, p, s), p + s, rest)
  {
  }

  /** A binned chunk that has just been unlinked is split and the rest is to be binned. */
  lemma FrontStep(m: Mem, smallmap: bv32, treemap: bv32, b0: Bins, b: Bins, ck: Chunks, segs: seq<Segment>, least: int,
                  dv: int, dvsize: int, top: int, topsize: int, p: int, nb: int)
    requires Loose(m, smallmap, treemap, b, ck, segs, least) && Settled(b0.sz, ck, segs, dv, dvsize, top, topsize)
    requires p in b0.sz && b.sz == b0.sz - {p} && CanSplit(ck, p, nb)
    ensures p + ck[p].size in ck && p + nb > 0
    ensures var n, d, r := SetSizeOfFree(SetSizeOfInuse(m, p, nb), p + nb, ck[p].size - nb), Split(ck, p, nb), p + nb;
      && Loose(n, smallmap, treemap, b, d, segs, least) && Granted(m, ck, n, d, p + 16, nb)
      && r in d && d[r] == Chunk(ck[p].size - nb, Free, 0) && r !in b.sz
      && (dvsize != 0 ==>
          dv in d && d[dv] == ck[dv] && ck[dv].kind == Free && ck[dv].prev == 0 && ck[dv].size == dvsize && dv != r &&
            dv !in b.sz)
    ensures Settled(b.sz[p + nb := ck[p].size - nb], Split(ck, p, nb), segs, dv, dvsize, top, topsize)
    ensures Settled(if dvsize != 0 then b.sz[dv := dvsize] else b.sz, Split(ck, p, nb), segs, p + nb, ck[p].size - nb,
                    top, topsize)
  {
    hide LayoutOk, Shape, Loose, Granted, Coalesced, FreeOf, Split, TopOk, SetSizeOfFree, SetSizeOfInuse;
    assert Shape(ck) by { LooseParts(m, smallmap, treemap, b, ck, segs, least); }
    NotNull(ck);
    Address(ck, p);
    TookFront(m, smallmap, treemap, b, ck, segs, least, p, nb);
    SplitNew(ck, p, nb);
    SplitRest(ck, p, nb);
    SplitKeepsDv(ck, b, dv, dvsize, p, nb);
    SplitSettled(b0.sz, b.sz[p + nb := ck[p].size - nb], ck, segs, dv, dvsize, top, topsize, p, nb);
    SplitNewDv(b0.sz, if dvsize != 0 then b.sz[dv := dvsize] else b.sz, ck, segs, dv, dvsize, top, topsize, p, nb);
  }

  lemma SplitKeepsDv(ck: Chunks, b: Bins, dv: int, dvsize: int, p: int, s: int)
    requires Shape(ck) && Coalesced(ck) && DvOk(ck, dv, dvsize) && CanSplit(ck, p, s) && p != dv && p + ck[p].size in ck
    requires p + s !in ck
    ensures dv != 0 ==> dv in Split(ck, p, s) && Split(ck, p, s)[dv] == ck[dv]
    ensures dv != 0 ==> ck[dv].kind == Free && ck[dv].prev == 0 && ck[dv].size == dvsize && dv != p + s
  {
    hide Shape;
    NextIn(ck, p);
  }

  /** What the search of tmalloc_large found, in terms of the layout. */
  lemma Verdict(b: Bins, ck: Chunks, segs: seq<Segment>, dv: int, dvsize: int, top: int, topsize: int, nb: int, v: int,
                rsize: int)
    requires Settled(b.sz, ck, segs, dv, dvsize, top, topsize) && LayoutOk(ck, segs) && Regions(segs)
    requires Complete(b.trie, b.sz)
    requires Best(b.trie, b.sz, nb, v, rsize) && NoneTighter(b.trie, b.sz, nb, rsize)
    ensures v != 0 ==> v in b.sz && v in ck && ck[v] == Chunk(nb + rsize, Free, 0) && v != dv
    ensures forall y | y in ck && ck[y].kind == Free && y != dv && ck[y].size >= nb && ck[y].size >= 256 ::
      v != 0 && ck[y].size >= nb + rsize
  {
    hide LayoutOk, Regions, TopOk, DvOk;
    forall y | y in ck && ck[y].kind == Free && y != dv && ck[y].size >= nb && ck[y].size >= 256
      ensures v != 0 && ck[y].size >= nb + rsize
    {
      SizeBound(ck, segs, y);
      assert y in b.sz && b.sz[y] == ck[y].size;
    }
  }

  /** What a search of the trie relies on, and what it amounts to. */
  lemma Searched(m: Mem, smallmap: bv32, treemap: bv32, b: Bins, ck: Chunks, segs: seq<Segment>, least: int,
                 dv: int, dvsize: int, top: int, topsize: int, nb: int, v: int, rsize: int)
    requires nb >= MIN_CHUNK_SIZE && nb % 16 == 0
    requires Loose(m, smallmap, treemap, b, ck, segs, least) && Settled(b.sz, ck, segs, dv, dvsize, top, topsize)
    requires Best(b.trie, b.sz, nb, v, rsize) && NoneTighter(b.trie, b.sz, nb, rsize)
    ensures BinsReady(m, smallmap, treemap, b, least) && FreeIn(ck, b.sz) && FreeIn(ck, b.sz - {v})
    ensures v != 0 ==>
      v in b.trie.loc && v in b.sz && v in ck && ck[v] == Chunk(nb + rsize, Free, 0) && v != dv && v >= least && v > 0
    ensures v != 0 ==> rsize >= 0 && (rsize >= MIN_CHUNK_SIZE ==> CanSplit(ck, v, nb))
    ensures forall y | y in ck && ck[y].kind == Free && y != dv && ck[y].size >= nb && ck[y].size >= 256 ::
      v != 0 && ck[y].size >= nb + rsize
  {
    hide LayoutOk, Shape, Records, Tagged, SegList, Regions, WellFormed, TreeOk, BinsReady, NoneTighter, TopOk, DvOk,
         Coalesced, FreeOf;
    LooseParts(m, smallmap, treemap, b, ck, segs, least);
    ReadyTree(m, smallmap, treemap, b, least);
    assert Complete(b.trie, b.sz) by { WellFormedComplete(b); }
    Verdict(b, ck, segs, dv, dvsize, top, topsize, nb, v, rsize);
    if v != 0 {
      Address(ck, v);
    }
  }

  lemma WellFormedComplete(b: Bins)
    requires WellFormed(b.trie, b.sz)
    ensures Complete(b.trie, b.sz)
  {
  }

  lemma TreeSize(m: Mem, smallmap: bv32, treemap: bv32, b: Bins, ck: Chunks, segs: seq<Segment>, least: int, v: int)
    requires Loose(m, smallmap, treemap, b, ck, segs, least) && v in b.trie.loc
    ensures v in ck && ck[v].size >= 256
  {
    hide LayoutOk, Shape, Records, Tagged, SegList, Regions, WellFormed, TreeOk, BinsReady;
    LooseParts(m, smallmap, treemap, b, ck, segs, least);
    ReadyTree(m, smallmap, treemap, b, least);
    TrieSize(b, v);
  }

  lemma TrieSize(b: Bins, v: int)
    requires WellFormed(b.trie, b.sz) && v in b.trie.loc
    ensures v in b.sz && b.sz[v] >= 256
  {
    hide Shaped, Placed, Unique, Chained;
  }

  lemma TopStep(m: Mem, smallmap: bv32, treemap: bv32, b: Bins, ck: Chunks, segs: seq<Segment>, least: int,
                dv: int, dvsize: int, top: int, topsize: int, nb: int)
    requires Loose(m, smallmap, treemap, b, ck, segs, least) && Settled(b.sz, ck, segs, dv, dvsize, top, topsize)
    requires MIN_CHUNK_SIZE <= nb < topsize && nb % 16 == 0
    ensures top in ck
    ensures var n, d := SetSizeOfInuse(m[top + nb + HEAD := topsize - nb + PINUSE_BIT], top, nb), CutTop(ck, top, nb);
      && Loose(n, smallmap, treemap, b, d, segs, least) && Settled(b.sz, d, segs, dv, dvsize, top + nb, topsize - nb)
      && Granted(m, ck, n, d, top + 16, nb)
  {
    hide LayoutOk, Shape, Loose, SetSizeOfInuse, Granted, Coalesced, FreeOf, CutTop, DvOk;
    assert Shape(ck) by { LooseParts(m, smallmap, treemap, b, ck, segs, least); }
    TookTop(m, smallmap, treemap, b, ck, segs, least, top, nb);
    CutTopNew(ck, top, nb);
    TopCutSettled(b.sz, ck, segs, dv, dvsize, top, topsize, nb);
  }

  lemma CutTopNew(ck: Chunks, p: int, s: int)
    requires Shape(ck) && CanCutTop(ck, p, s)
    ensures p + s !in ck
  {
    hide Shape;
    NotInside(ck, p, p + s);
  }

  // ----- Small bins

  /** Whether a request of `nb` bytes can be met from the free chunks other than the top. */
  ghost predicate Fits(ck: Chunks, nb: int) {
    exists y :: y in ck && ck[y].kind == Free && ck[y].size >= nb
  }

  lemma FitsAt(ck: Chunks, nb: int, y: int)
    requires y in ck && ck[y].kind == Free && ck[y].size >= nb
    ensures Fits(ck, nb)
  {
  }

  /** The bins hold nothing that fits. */
  lemma NothingFits(sz: map<int, int>, ck: Chunks, segs: seq<Segment>, dv: int, dvsize: int, top: int, topsize: int,
                    nb: int)
    requires Settled(sz, ck, segs, dv, dvsize, top, topsize) && dvsize < nb && 0 !in ck && forall y | y in sz :: sz[y] < nb
    ensures !Fits(ck, nb)
  {
    hide Coalesced, TopOk;
    forall y | y in ck && ck[y].kind == Free ensures ck[y].size < nb {
      if y != dv { assert y in sz; }
    }
  }

  lemma GrantedNonNull(m: Mem, ck: Chunks, n: Mem, d: Chunks, r: int, nb: int)
    requires Granted(m, ck, n, d, r, nb)
    ensures r > 0
  {
  }

  lemma FreeChunk(ck: Chunks, sz: map<int, int>, p: int)
    requires FreeIn(ck, sz) && p in sz
    ensures p in ck && ck[p].kind == Free && ck[p].size == sz[p]
  {
  }

  /** A binned small chunk's bin is marked. */
  lemma SmallMarked(m: Mem, smallmap: bv32, b: Bins, y: int)
    requires SmallOk(m, smallmap, b) && y in b.sz && b.sz[y] < 256
    ensures 0 <= b.sz[y] / 8 < NBINS && Marked(smallmap, b.sz[y] / 8)
  {
    hide Marked;
    var i := b.sz[y] / 8;
    assert SmallBinOk(m, smallmap, b.small[i], i);
  }

  lemma NoneMarkedBelow(y: int, nb: int)
    requires y >= nb && nb >= 0
    ensures y / 8 >= nb / 8
  {
  }

  /** With no small bin marked from that of `nb` on, and no tree bin, nothing binned is large enough. */
  lemma NothingBinned(m: Mem, smallmap: bv32, treemap: bv32, b: Bins, ck: Chunks, segs: seq<Segment>, least: int,
                      dv: int, dvsize: int, top: int, topsize: int, nb: int)
    requires Loose(m, smallmap, treemap, b, ck, segs, least) && Settled(b.sz, ck, segs, dv, dvsize, top, topsize)
    requires 0 < nb < 256 && NoneFrom(smallmap, nb / 8) && treemap == 0 && dvsize < nb
    ensures !Fits(ck, nb)
  {
    hide Loose, LayoutOk, Shape, BinsReady, Settled, Marked, SmallOk, TreeOk, WellFormed;
    LooseParts(m, smallmap, treemap, b, ck, segs, least);
    ReadyTree(m, smallmap, treemap, b, least);
    ReadySmall(m, smallmap, treemap, b, least);
    WellFormedComplete(b);
    NoneMarked(treemap);
    forall y | y in b.sz ensures b.sz[y] < nb {
      if b.sz[y] >= 256 {
        BinMarked(m, treemap, b, y);
      } else if b.sz[y] >= nb {
        NoneMarkedBelow(b.sz[y], nb);
        SmallMarked(m, smallmap, b, y);
      }
    }
    NotNull(ck);
    NothingFits(b.sz, ck, segs, dv, dvsize, top, topsize, nb);
  }

  lemma ReadySmall(m: Mem, smallmap: bv32, treemap: bv32, b: Bins, least: int)
    requires BinsReady(m, smallmap, treemap, b, least)
    ensures SmallOk(m, smallmap, b)
  {
    hide SmallOk, TreeOk;
  }

  // ----- Requests

  const MAX_SMALL_REQUEST: int := 255 - 15 - 8
  const MIN_REQUEST: int := MIN_CHUNK_SIZE - 8 - 1
  const MAX_REQUEST: int := W64 - 4 * MIN_CHUNK_SIZE

  /** pad_request */
  function PadRequest(bytes: int): int {
    var n := bytes + 8 + 15;
    n - n % 16
  }

  /** request2size */
  function RequestSize(bytes: int): int {
    if bytes < MIN_REQUEST then MIN_CHUNK_SIZE else PadRequest(bytes)
  }

  /** The chunk size that dlmalloc looks for; what is too big to allocate becomes a size that sys_alloc refuses. */
  function MallocSize(bytes: int): int {
    if bytes >= MAX_REQUEST then W64 - 1 else RequestSize(bytes)
  }

  /** The size has room for the request and for the head, and is no larger than it has to be. */
  lemma RequestFits(bytes: int)
    requires 0 <= bytes < W64
    ensures var nb := MallocSize(bytes);
      && MIN_CHUNK_SIZE <= nb < W64
      && (bytes < MAX_REQUEST ==> nb % 16 == 0 && nb >= bytes + 8 && (nb == MIN_CHUNK_SIZE || nb < bytes + 8 + 16))
      && (bytes <= MAX_SMALL_REQUEST ==> nb <= 240)
      && (MAX_SMALL_REQUEST < bytes < MAX_REQUEST ==> nb >= 256)
      && (bytes >= MAX_REQUEST ==> nb == W64 - 1)
  {
  }

  lemma FirstIs(m: bv32, lo: nat, i: nat)
    requires FirstMarked(m, lo, i)
    ensures lo <= i < NBINS && Marked(m, i)
  {
    hide Marked;
  }

  lemma IndexSize(nb: int, i: nat)
    requires i >= nb / 8 && nb % 16 == 0 && nb >= 0
    ensures nb <= 8 * i
  {
  }

  /** tmalloc_large found nothing better than a designated victim that is too small: there is nothing. */
  lemma NoneBeatsDv(m: Mem, smallmap: bv32, treemap: bv32, b: Bins, ck: Chunks, segs: seq<Segment>, least: int,
                    dv: int, dvsize: int, top: int, topsize: int, nb: int)
    requires Loose(m, smallmap, treemap, b, ck, segs, least) && Settled(b.sz, ck, segs, dv, dvsize, top, topsize)
    requires nb > 0
    requires forall y | y in ck && ck[y].kind == Free && y != dv && ck[y].size >= nb :: ck[y].size - nb >= Sub64(dvsize, nb)
    ensures nb <= dvsize || !Fits(ck, nb)
  {
    hide Loose, LayoutOk, Shape, Regions, Coalesced, TopOk, FreeOf;
    LooseParts(m, smallmap, treemap, b, ck, segs, least);
    NotNull(ck);
    SizesSmall(m, smallmap, treemap, b, ck, segs, least, dv, dvsize, top, topsize);
    forall y | y in ck && ck[y].kind == Free && dvsize < nb ensures ck[y].size < nb {
      SizeBound(ck, segs, y);
    }
  }

  lemma NoTrees(m: Mem, smallmap: bv32, treemap: bv32, b: Bins, ck: Chunks, segs: seq<Segment>, least: int,
                dv: int, dvsize: int, top: int, topsize: int, nb: int)
    requires Loose(m, smallmap, treemap, b, ck, segs, least) && Settled(b.sz, ck, segs, dv, dvsize, top, topsize)
    requires 256 <= nb && treemap == 0 && dvsize < nb
    ensures !Fits(ck, nb)
  {
    hide Loose, LayoutOk, Shape, BinsReady, Settled, Marked, TreeOk, WellFormed;
    LooseParts(m, smallmap, treemap, b, ck, segs, least);
    ReadyTree(m, smallmap, treemap, b, least);
    WellFormedComplete(b);
    NoneMarked(treemap);
    forall y | y in b.sz ensures b.sz[y] < nb {
      if b.sz[y] >= 256 {
        BinMarked(m, treemap, b, y);
      }
    }
    NotNull(ck);
    NothingFits(b.sz, ck, segs, dv, dvsize, top, topsize, nb);
  }

  /** Chunk sizes are multiples of 16 and stay clear of the size that stands for failure. */
  lemma SizesSmall(m: Mem, smallmap: bv32, treemap: bv32, b: Bins, ck: Chunks, segs: seq<Segment>, least: int,
                   dv: int, dvsize: int, top: int, topsize: int)
    requires Loose(m, smallmap, treemap, b, ck, segs, least) && Settled(b.sz, ck, segs, dv, dvsize, top, topsize)
    ensures 0 <= dvsize < W64 - 1 && 0 <= topsize < W64 - 1
    ensures !Fits(ck, W64 - 1)
  {
    hide Loose, LayoutOk, Shape, Regions, Coalesced, FreeOf;
    LooseParts(m, smallmap, treemap, b, ck, segs, least);
    forall y | y in ck ensures 0 < ck[y].size < W64 - 1 {
      SizeBound(ck, segs, y);
      ChunkIn(ck, y);
    }
  }

  lemma DvFits(m: Mem, smallmap: bv32, treemap: bv32, b: Bins, ck: Chunks, segs: seq<Segment>, least: int,
               dv: int, dvsize: int, top: int, topsize: int, nb: int)
    requires Loose(m, smallmap, treemap, b, ck, segs, least) && Settled(b.sz, ck, segs, dv, dvsize, top, topsize)
    requires 0 < nb <= dvsize
    ensures Fits(ck, nb)
  {
    hide Loose, Coalesced, TopOk, FreeOf;
    FitsAt(ck, nb, dv);
  }

  /** The new block's head gives its size, by which the sum of all blocks has grown. */
  lemma GrantedTotal(l: Mem, ck: Chunks, m: Mem, smallmap: bv32, treemap: bv32, b: Bins, d: Chunks, segs: seq<Segment>,
                     least: int, r: int, nb: int)
    requires Granted(l, ck, m, d, r, nb) && Loose(m, smallmap, treemap, b, d, segs, least)
    ensures Total(LiveOf(d)) == Total(LiveOf(ck)) + ChunkSize(Rd(m, r - 16 + HEAD))
  {
    hide Loose, Shape, Total, LiveOf, BlocksKept;
    LooseParts(m, smallmap, treemap, b, d, segs, least);
    ReadChunk(m, d, r - 16);
    TotalWith(LiveOf(ck), r - 16, d[r - 16].size);
  }
}
