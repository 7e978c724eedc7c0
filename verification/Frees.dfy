/** Giving a block back: what the merges with its neighbours amount to. */
module Frees {
  import opened Memory
  import opened Bins
  import opened BinSteps
  import opened Layout
  import opened Segments
  import opened Tags
  import opened Moves
  import opened Retags
  import opened Invariant
  import opened Grants
  import opened SegmentGrowth

  // ----- The tags of the merged run

  /** Neither neighbour that `p` is about to merge with is in a bin any more. */
  ghost predicate Unbinned(ck: Chunks, p: int, sz: map<int, int>)
    requires p in ck
  {
    RunBase(ck, p) !in sz && p + ck[p].size !in sz
  }

  lemma FreedKeeps(ck: Chunks, segs: seq<Segment>, p: int, sz: map<int, int>, least: int)
    requires LayoutOk(ck, segs) && Coalesced(ck) && p in ck && ck[p].kind == Live && FreeIn(ck, sz)
    requires Unbinned(ck, p, sz) && AboveLeast(ck, least)
    ensures RunBase(ck, p) in ck && FreeIn(Freed(ck, p), sz) && AboveLeast(Freed(ck, p), least)
  {
    hide LayoutOk, Shape, Coalesced, RunBase, Freed, RunEnd;
    FreedReplaces(ck, segs, p);
    OkShape(ck, segs);
    AfterRun(ck, p);
    var q, e, d, n := RunBase(ck, p), RunEnd(ck, p), Freed(ck, p), p + ck[p].size;
    RunEndBound(ck, p);
    forall x | x in sz ensures x in d && d[x] == ck[x] {
      if q <= x < e { InRun(ck, p, x); }
    }
  }

  /** The writes that free `p` leave everything else as it was. */
  lemma FreedStep(m: Mem, n: Mem, smallmap: bv32, treemap: bv32, b: Bins, ck: Chunks, segs: seq<Segment>, least: int,
                  p: int)
    requires Loose(m, smallmap, treemap, b, ck, segs, least) && Coalesced(ck) && p in ck && ck[p].kind == Live
    requires Unbinned(ck, p, b.sz)
    requires RunWrites(m, n, ck, p)
    ensures RunBase(ck, p) in ck
    ensures Loose(n, smallmap, treemap, b, Freed(ck, p), segs, least) && PayloadsKept(m, n, Freed(ck, p))
  {
    hide Loose, LayoutOk, Shape, Records, Tagged, SegList, Regions, BinsReady, FreeIn, AboveLeast, Coalesced, Freed,
         RunWrites, OnlyTags, PayloadsKept, Unbinned, RunBase;
    LooseParts(m, smallmap, treemap, b, ck, segs, least);
    FreedOk(ck, segs, p);
    FreedTags(m, n, ck, segs, p);
    FreedKeeps(ck, segs, p, b.sz, least);
    TagStep(m, n, smallmap, treemap, b, ck, Freed(ck, p), segs, least);
  }

  // ----- Settling

  /** The designated victim, the top and the bins after `p` was freed. */
  ghost predicate FreedPlaces(ck: Chunks, p: int, sz: map<int, int>, sz': map<int, int>, dv: int, dvsize: int,
                              top: int, topsize: int,
                              dv': int, dvsize': int, top': int, topsize': int)
    requires p in ck
  {
    var q, n, c := RunBase(ck, p), p + ck[p].size, RunChunk(ck, p);
    var rest := sz - {q, n};
    if c.kind == Top then
      && top' == q && topsize' == c.size && sz' == rest
      && (if dv == q then dv' == 0 && dvsize' == 0 else dv' == dv && dvsize' == dvsize)
    else
      && top' == top && topsize' == topsize
      && (if dv == q || dv == n then dv' == q && dvsize' == c.size && sz' == rest
          else dv' == dv && dvsize' == dvsize && sz' == rest[q := c.size])
  }

  lemma FreedSettled(sz: map<int, int>, sz': map<int, int>, ck: Chunks, segs: seq<Segment>, p: int, dv: int,
                     dvsize: int, top: int, topsize: int,
                     dv': int, dvsize': int, top': int, topsize': int)
    requires Settled(sz, ck, segs, dv, dvsize, top, topsize) && LayoutOk(ck, segs) && p in ck && ck[p].kind == Live
    requires segs != []
    requires FreedPlaces(ck, p, sz, sz', dv, dvsize, top, topsize, dv', dvsize', top', topsize')
    ensures RunBase(ck, p) in ck && Settled(sz', Freed(ck, p), segs, dv', dvsize', top', topsize')
  {
    hide LayoutOk, Shape, Coalesced, Freed, RunBase, RunEnd, RunChunk, FreeOf, DvOk, TopOk;
    OkShape(ck, segs);
    FreedCoalesced(ck, segs, p);
    FreedFree(ck, segs, p);
    FreedReplaces(ck, segs, p);
    FreedDv(ck, segs, p, dv, dvsize, dv', dvsize');
    FreedTop(ck, segs, p, top, topsize, top', topsize');
    NotNull(ck);
    RunPlace(ck, p);
    FreedBins(FreeOf(ck), sz, sz', FreeOf(Freed(ck, p)), RunBase(ck, p), p + ck[p].size, RunChunk(ck, p), dv, dv');
  }

  lemma RunPlace(ck: Chunks, p: int)
    requires Shape(ck) && p in ck && ck[p].kind == Live
    ensures RunBase(ck, p) != 0 && RunBase(ck, p) != p + ck[p].size && 0 !in FreeOf(ck)
    ensures p + ck[p].size !in FreeOf(ck) || RunChunk(ck, p).kind != Top
  {
    hide Shape;
    NotNull(ck);
    RunEndBound(ck, p);
    BackIn(ck, p);
  }

  lemma FreedBins(f: map<int, int>, sz: map<int, int>, sz': map<int, int>, g: map<int, int>, q: int, n: int, c: Chunk,
                  dv: int, dv': int)
    requires sz == f - {dv} && q != 0 && q != n && 0 !in f && (n !in f || c.kind != Top)
    requires g == if c.kind == Top then f - {q, n} else (f - {q, n})[q := c.size]
    requires var rest := sz - {q, n};
      if c.kind == Top then sz' == rest && (if dv == q then dv' == 0 else dv' == dv)
      else if dv == q || dv == n then dv' == q && sz' == rest else dv' == dv && sz' == rest[q := c.size]
    ensures sz' == g - {dv'}
  {
  }

  lemma FreedDv(ck: Chunks, segs: seq<Segment>, p: int, dv: int, dvsize: int, dv': int, dvsize': int)
    requires LayoutOk(ck, segs) && Coalesced(ck) && p in ck && ck[p].kind == Live && DvOk(ck, dv, dvsize)
    requires var q, n, c := RunBase(ck, p), p + ck[p].size, RunChunk(ck, p);
      if c.kind == Top then (if dv == q then dv' == 0 && dvsize' == 0 else dv' == dv && dvsize' == dvsize)
      else if dv == q || dv == n then dv' == q && dvsize' == c.size else dv' == dv && dvsize' == dvsize
    ensures RunBase(ck, p) in ck && DvOk(Freed(ck, p), dv', dvsize')
  {
    hide LayoutOk, Shape, Coalesced, Freed, RunBase, RunEnd;
    OkShape(ck, segs);
    FreedReplaces(ck, segs, p);
    AfterRun(ck, p);
    RunEndBound(ck, p);
    RunPlace2(ck, p);
    var q, e, n := RunBase(ck, p), RunEnd(ck, p), p + ck[p].size;
    if dv != 0 && q <= dv < e { InRun(ck, p, dv); }
    if RunChunk(ck, p).kind == Top { NextEnds(ck, p); }
  }

  lemma RunPlace2(ck: Chunks, p: int)
    requires Shape(ck) && p in ck && ck[p].kind == Live
    ensures RunBase(ck, p) != 0 && RunChunk(ck, p).size > 0 && p + ck[p].size in ck
    ensures RunChunk(ck, p).kind == Top <==> ck[p + ck[p].size].kind == Top
  {
    hide Shape;
    NotNull(ck);
    RunEndBound(ck, p);
    BackIn(ck, p);
  }

  lemma FreedTop(ck: Chunks, segs: seq<Segment>, p: int, top: int, topsize: int, top': int, topsize': int)
    requires LayoutOk(ck, segs) && Coalesced(ck) && p in ck && ck[p].kind == Live && TopOk(ck, segs, top, topsize)
    requires segs != []
    requires var q, c := RunBase(ck, p), RunChunk(ck, p);
      if c.kind == Top then top' == q && topsize' == c.size else top' == top && topsize' == topsize
    ensures RunBase(ck, p) in ck && TopOk(Freed(ck, p), segs, top', topsize')
  {
    hide LayoutOk, Shape, Coalesced, Freed, RunBase, RunEnd;
    OkShape(ck, segs);
    FreedReplaces(ck, segs, p);
    AfterRun(ck, p);
    RunEndBound(ck, p);
    RunPlace2(ck, p);
    var q, e := RunBase(ck, p), RunEnd(ck, p);
    if q <= top < e { InRun(ck, p, top); BackIn(ck, p); TopNotBase(ck, p, top); }
  }

  lemma TopNotBase(ck: Chunks, p: int, top: int)
    requires Shape(ck) && p in ck && ck[p].kind == Live && top in ck && ck[top].kind == Top
    ensures top != RunBase(ck, p) && top != p
  {
    hide Shape;
    BackIn(ck, p);
  }

  // ----- What the code reads

  /** The chunk to be freed, and the free chunk before it if there is one. */
  lemma ReadBack(m: Mem, ck: Chunks, p: int)
    requires Shape(ck) && Tagged(m, ck) && p in ck && ck[p].kind == Live
    ensures var w, q := Rd(m, p + HEAD), RunBase(ck, p);
      && CurInUse(w) && IsInUse(w) && ChunkSize(w) == ck[p].size
      && (PrevInUse(w) <==> ck[p].prev == 0) && q in ck
      && (PrevInUse(w) ==> q == p)
      && (!PrevInUse(w) ==> Rd(m, p) == ck[p].prev && q == p - Rd(m, p) && q < p && ck[q].kind == Free && ck[q].size == Rd(m, p))
  {
    hide Shape, HeadWord;
    ChunkIn(ck, p);
    BackIn(ck, p);
    assert TagOk(m, p, ck[p]);
    HeadBits(p, ck[p]);
  }

  /** What the head of the chunk after `p` tells. */
  ghost predicate NextRead(m: Mem, ck: Chunks, p: int, top: int, topsize: int) {
    && p in ck && p + ck[p].size in ck
    && var n := p + ck[p].size;
      var w := Rd(m, n + HEAD);
      && PrevInUse(w) && n > p
      && (CurInUse(w) <==> ck[n].kind != Free && ck[n].kind != Top)
      && (n == top <==> ck[n].kind == Top) && (ck[n].kind == Top ==> ck[n].size == topsize)
      && (ck[n].kind == Free ==> ChunkSize(w) == ck[n].size)
  }

  lemma ReadNext(m: Mem, ck: Chunks, segs: seq<Segment>, p: int, top: int, topsize: int)
    requires LayoutOk(ck, segs) && Tagged(m, ck) && p in ck && ck[p].kind == Live && TopOk(ck, segs, top, topsize)
    ensures NextRead(m, ck, p, top, topsize) && segs != []
  {
    hide LayoutOk, Shape, HeadWord;
    OkShape(ck, segs);
    NextIn(ck, p);
    SizePositive(ck, p);
    var n := p + ck[p].size;
    ChunkIn(ck, n);
    assert TagOk(m, n, ck[n]);
    HeadBits(n, ck[n]);
    if ck[n].kind == Top {
      OnlyTop(ck, segs, n, top);
    }
  }

  /** What freeing `p` relies on: the chunk itself and the one before it, in the bins `sz` or not. */
  ghost predicate BackReady(m: Mem, ck: Chunks, least: int, sz: map<int, int>, p: int, dv: int) {
    && p in ck && RunBase(ck, p) in ck
    && var w, q := Rd(m, p + HEAD), RunBase(ck, p);
      && CurInUse(w) && IsInUse(w) && ChunkSize(w) == ck[p].size && p >= least && q >= least
      && (PrevInUse(w) ==> q == p && q !in sz && q != dv)
      && (!PrevInUse(w) ==>
            Rd(m, p) == ck[p].prev && q == p - Rd(m, p) && q < p && (q != dv ==> q in sz && sz[q] == Rd(m, p)) && (q == dv ==> q !in sz))
  }

  /** The same of the chunk after it. */
  ghost predicate NextReady(m: Mem, ck: Chunks, least: int, sz: map<int, int>, p: int, dv: int, dvsize: int) {
    && p in ck && p + ck[p].size in ck
    && var n := p + ck[p].size;
      && n >= least && n != RunBase(ck, p)
      && (ck[n].kind == Free && n != dv ==> n in sz && sz[n] == ck[n].size)
      && (ck[n].kind == Free && n == dv ==> n !in sz && dvsize == ck[n].size)
      && (ck[n].kind != Free ==> n !in sz && n != dv)
  }

  lemma FreeReads(m: Mem, smallmap: bv32, treemap: bv32, b: Bins, ck: Chunks, segs: seq<Segment>, least: int,
                  sz: map<int, int>,
                  p: int, dv: int, dvsize: int, top: int, topsize: int)
    requires Loose(m, smallmap, treemap, b, ck, segs, least) && Settled(sz, ck, segs, dv, dvsize, top, topsize)
    requires p in ck && ck[p].kind == Live
    ensures LayoutOk(ck, segs) && Held(m, smallmap, treemap, b, ck, least) && segs != []
    ensures BackReady(m, ck, least, sz, p, dv) && NextRead(m, ck, p, top, topsize)
    ensures NextReady(m, ck, least, sz, p, dv, dvsize)
  {
    hide Loose, LayoutOk, Shape, Records, Tagged, SegList, Regions, BinsReady, HeadWord, Coalesced, TopOk, RunBase,
         Held;
    LooseBins(m, smallmap, treemap, b, ck, segs, least);
    LooseParts(m, smallmap, treemap, b, ck, segs, least);
    ReadBack(m, ck, p);
    ReadNext(m, ck, segs, p, top, topsize);
    NotNull(ck);
    RunPlace(ck, p);
  }

  /** What the merged run is, in the code's terms. */
  ghost predicate RunKnown(ck: Chunks, p: int) {
    && p in ck && p + ck[p].size in ck
    && var q, n, c := RunBase(ck, p), p + ck[p].size, RunChunk(ck, p);
      if ck[n].kind == Free || ck[n].kind == Top then
        RunEnd(ck, p) == n + ck[n].size && n < RunEnd(ck, p) && c == Chunk(n + ck[n].size - q, ck[n].kind, 0)
      else RunEnd(ck, p) == n && c == Chunk(n - q, Free, 0)
  }

  lemma RunIs(ck: Chunks, segs: seq<Segment>, p: int)
    requires LayoutOk(ck, segs) && p in ck && ck[p].kind == Live
    ensures RunKnown(ck, p)
  {
    hide LayoutOk, Shape;
    OkShape(ck, segs);
    NextIn(ck, p);
    SizePositive(ck, p + ck[p].size);
  }

  /** Freeing `p`, once its neighbours are out of the bins: the writes, the layout and the places. */
  lemma FreedDone(l: Mem, m: Mem, n: Mem, smallmap: bv32, treemap: bv32, b: Bins, ck: Chunks, segs: seq<Segment>,
                  least: int, p: int)
    requires Loose(m, smallmap, treemap, b, ck, segs, least) && Coalesced(ck) && p in ck && ck[p].kind == Live
    requires Unbinned(ck, p, b.sz)
    requires RunWrites(m, n, ck, p) && PayloadsKept(l, m, ck)
    ensures RunBase(ck, p) in ck
    ensures Loose(n, smallmap, treemap, b, Freed(ck, p), segs, least)
    ensures LiveOf(Freed(ck, p)) == LiveOf(ck) - {p} && BlocksKept(l, n, LiveOf(Freed(ck, p)))
  {
    hide Loose, LayoutOk, Shape, Records, Tagged, SegList, Regions, BinsReady, FreeIn, AboveLeast, Coalesced, Freed,
         RunWrites, PayloadsKept, Unbinned, RunBase, LiveOf, BlocksKept;
    LooseParts(m, smallmap, treemap, b, ck, segs, least);
    FreedStep(m, n, smallmap, treemap, b, ck, segs, least, p);
    FreedLive(ck, segs, p);
    var live := LiveOf(Freed(ck, p));
    InLive(Freed(ck, p));
    InLive(ck);
    KeptBlocks(l, m, ck, live);
    KeptBlocks(m, n, Freed(ck, p), live);
    BlocksTwice(l, m, n, live);
  }

  lemma KeptSelf(m: Mem, ck: Chunks)
    ensures PayloadsKept(m, m, ck)
  {
  }

  /** The end of every path of free: `sz0` are the bins before the call, `sz'` those at its end. */
  lemma FreedAll(l: Mem, m: Mem, n: Mem, smallmap: bv32, treemap: bv32, b: Bins, ck: Chunks, segs: seq<Segment>,
                 least: int, p: int,
                 sz0: map<int, int>, sz': map<int, int>, dv: int, dvsize: int, top: int, topsize: int, dv': int,
                 dvsize': int, top': int, topsize': int)
    requires Loose(m, smallmap, treemap, b, ck, segs, least) && Settled(sz0, ck, segs, dv, dvsize, top, topsize)
    requires p in ck && ck[p].kind == Live && PayloadsKept(l, m, ck) && RunWrites(m, n, ck, p)
    requires b.sz == sz0 - {RunBase(ck, p), p + ck[p].size}
    requires FreedPlaces(ck, p, sz0, sz', dv, dvsize, top, topsize, dv', dvsize', top', topsize')
    ensures RunBase(ck, p) in ck
    ensures Loose(n, smallmap, treemap, b, Freed(ck, p), segs, least)
    ensures Settled(sz', Freed(ck, p), segs, dv', dvsize', top', topsize')
    ensures LiveOf(Freed(ck, p)) == LiveOf(ck) - {p} && BlocksKept(l, n, LiveOf(Freed(ck, p)))
    ensures RunBase(ck, p) in Freed(ck, p) && Freed(ck, p)[RunBase(ck, p)] == RunChunk(ck, p)
  {
    hide Loose, LayoutOk, Freed, RunWrites, PayloadsKept, RunBase, LiveOf, BlocksKept, RunChunk, FreedPlaces, DvOk,
         TopOk, Coalesced, Replaces, FreeOf;
    assert segs != [] && LayoutOk(ck, segs) by {
      FreeReads(m, smallmap, treemap, b, ck, segs, least, sz0, p, dv, dvsize, top, topsize);
    }
    FreedDone(l, m, n, smallmap, treemap, b, ck, segs, least, p);
    FreedSettled(sz0, sz', ck, segs, p, dv, dvsize, top, topsize, dv', dvsize', top', topsize');
    FreedReplaces(ck, segs, p);
    ReplacesAt(ck, Freed(ck, p), RunBase(ck, p), RunEnd(ck, p), RunChunk(ck, p));
  }

  lemma LaterBlocks(l: Mem, m: Mem, n: Mem, ck: Chunks)
    requires BlocksKept(l, m, LiveOf(ck)) && PayloadsKept(m, n, ck)
    ensures BlocksKept(l, n, LiveOf(ck))
  {
    hide BlocksKept, PayloadsKept, LiveOf;
    InLive(ck);
    KeptBlocks(m, n, ck, LiveOf(ck));
    BlocksTwice(l, m, n, LiveOf(ck));
  }

  lemma LooseKnown(m: Mem, smallmap: bv32, treemap: bv32, b: Bins, ck: Chunks, segs: seq<Segment>, least: int)
    requires Loose(m, smallmap, treemap, b, ck, segs, least)
    ensures LayoutOk(ck, segs) && Tagged(m, ck) && Held(m, smallmap, treemap, b, ck, least)
  {
    hide LayoutOk, Tagged, Held, Loose;
    LooseParts(m, smallmap, treemap, b, ck, segs, least);
    LooseBins(m, smallmap, treemap, b, ck, segs, least);
  }

  // ----- The ways in which free ends; `q` is where the run begins, `next` the chunk after `p`

  /** The designated victim is next to `p`, so that the run of `p` becomes it, or goes to the top. */
  ghost predicate MergesDv(ck: Chunks, p: int, dv: int) {
    p in ck && (dv == RunBase(ck, p) || dv == p + ck[p].size)
  }

  /** What has happened so far: the neighbours to merge with are out of the bins. */
  ghost predicate Merging(l: Mem, m: Mem, smallmap: bv32, treemap: bv32, b: Bins, ck: Chunks, segs: seq<Segment>,
                          least: int, p: int,
                          sz0: map<int, int>, dv: int, dvsize: int, top: int, topsize: int) {
    && Loose(m, smallmap, treemap, b, ck, segs, least) && Settled(sz0, ck, segs, dv, dvsize, top, topsize)
    && p in ck && ck[p].kind == Live && PayloadsKept(l, m, ck) && b.sz == sz0 - {RunBase(ck, p), p + ck[p].size}
  }

  /** How things stand once `p` is freed: its run is the chunk `q` of size `s` and kind `k`. */
  ghost predicate Merged(l: Mem, n: Mem, smallmap: bv32, treemap: bv32, b: Bins, ck: Chunks, segs: seq<Segment>,
                         least: int, p: int, q: int, s: int, k: Kind,
                         sz': map<int, int>, dv': int, dvsize': int, top': int, topsize': int)
  {
    && p in ck && RunBase(ck, p) in ck
    && Loose(n, smallmap, treemap, b, Freed(ck, p), segs, least)
    && Settled(sz', Freed(ck, p), segs, dv', dvsize', top', topsize')
    && LiveOf(Freed(ck, p)) == LiveOf(ck) - {p} && BlocksKept(l, n, LiveOf(Freed(ck, p)))
    && q in Freed(ck, p) && Freed(ck, p)[q] == Chunk(s, k, 0) && q !in b.sz
  }

  ghost predicate AtRun(ck: Chunks, p: int, q: int, next: int) {
    p in ck && q == RunBase(ck, p) && next == p + ck[p].size && next in ck
  }

  lemma EndUsed(l: Mem, m: Mem, n: Mem, smallmap: bv32, treemap: bv32, b: Bins, ck: Chunks, segs: seq<Segment>,
                least: int, p: int, q: int, next: int, s: int,
                sz0: map<int, int>, dv: int, dvsize: int, top: int, topsize: int)
    requires AtRun(ck, p, q, next) && ck[next].kind != Free && ck[next].kind != Top && s == next - q
    requires n == SetFree(m, q, s, next)
    requires Merging(l, m, smallmap, treemap, b, ck, segs, least, p, sz0, dv, dvsize, top, topsize)
    ensures Merged(l, n, smallmap, treemap, b, ck, segs, least, p, q, s, Free, if dv == q then b.sz else b.sz[q := s],
                   dv, if dv == q then s else dvsize, top, topsize)
  {
    hide Loose, Held, LayoutOk, Freed, PayloadsKept, RunBase, LiveOf, BlocksKept, RunChunk, DvOk, TopOk, Coalesced,
         FreeOf, RunEnd, SetFree, SetSizeOfFree;
    LooseKnown(m, smallmap, treemap, b, ck, segs, least);
    RunIs(ck, segs, p);
    FreeReads(m, smallmap, treemap, b, ck, segs, least, sz0, p, dv, dvsize, top, topsize);
    FreedAll(l, m, n, smallmap, treemap, b, ck, segs, least, p, sz0, if dv == q then b.sz else b.sz[q := s],
             dv, dvsize, top, topsize, dv, if dv == q then s else dvsize, top, topsize);
  }

  lemma EndTop(l: Mem, m: Mem, n: Mem, smallmap: bv32, treemap: bv32, b: Bins, ck: Chunks, segs: seq<Segment>,
               least: int, p: int, q: int, next: int, s: int,
               sz0: map<int, int>, dv: int, dvsize: int, top: int, topsize: int)
    requires AtRun(ck, p, q, next) && ck[next].kind == Top && s == topsize + (next - q)
    requires n == m[q + HEAD := s + PINUSE_BIT]
    requires Merging(l, m, smallmap, treemap, b, ck, segs, least, p, sz0, dv, dvsize, top, topsize)
    ensures Merged(l, n, smallmap, treemap, b, ck, segs, least, p, q, s, Top, b.sz,
                   if dv == q then 0 else dv, if dv == q then 0 else dvsize, q, s)
  {
    hide Loose, Held, LayoutOk, Freed, PayloadsKept, RunBase, LiveOf, BlocksKept, RunChunk, DvOk, TopOk, Coalesced,
         FreeOf, RunEnd, SetFree, SetSizeOfFree;
    LooseKnown(m, smallmap, treemap, b, ck, segs, least);
    RunIs(ck, segs, p);
    FreeReads(m, smallmap, treemap, b, ck, segs, least, sz0, p, dv, dvsize, top, topsize);
    FreedAll(l, m, n, smallmap, treemap, b, ck, segs, least, p, sz0, b.sz,
             dv, dvsize, top, topsize, if dv == q then 0 else dv, if dv == q then 0 else dvsize, q, s);
  }

  lemma EndFree(l: Mem, m: Mem, n: Mem, smallmap: bv32, treemap: bv32, b: Bins, ck: Chunks, segs: seq<Segment>,
                least: int, p: int, q: int, next: int, s: int,
                sz0: map<int, int>, dv: int, dvsize: int, top: int, topsize: int)
    requires AtRun(ck, p, q, next) && ck[next].kind == Free && s == next - q + ck[next].size
    requires n == SetSizeOfFree(m, q, s) || n == SetFree(m, q, s, next + ck[next].size)
    requires Merging(l, m, smallmap, treemap, b, ck, segs, least, p, sz0, dv, dvsize, top, topsize)
    ensures Merged(l, n, smallmap, treemap, b, ck, segs, least, p, q, s, Free, if dv == q || dv == next then b.sz else b.sz[q := s],
                   if dv == q || dv == next then q else dv, if dv == q || dv == next then s else dvsize, top, topsize)
  {
    hide Loose, Held, LayoutOk, Freed, PayloadsKept, RunBase, LiveOf, BlocksKept, RunChunk, DvOk, TopOk, Coalesced,
         FreeOf, RunEnd, SetFree, SetSizeOfFree;
    LooseKnown(m, smallmap, treemap, b, ck, segs, least);
    RunIs(ck, segs, p);
    FreeReads(m, smallmap, treemap, b, ck, segs, least, sz0, p, dv, dvsize, top, topsize);
    FreedAll(l, m, n, smallmap, treemap, b, ck, segs, least, p, sz0, if dv == q || dv == next then b.sz else b.sz[q := s],
             dv, dvsize, top, topsize, if dv == q || dv == next then q else dv,
             if dv == q || dv == next then s else dvsize, top, topsize);
  }

  /** The chunk before, if free, is out of its bin. */
  ghost predicate HalfMerged(l: Mem, m: Mem, smallmap: bv32, treemap: bv32, b: Bins, ck: Chunks, segs: seq<Segment>,
                             least: int, p: int, q: int,
                             sz0: map<int, int>, dv: int, dvsize: int, top: int, topsize: int) {
    && Loose(m, smallmap, treemap, b, ck, segs, least) && Settled(sz0, ck, segs, dv, dvsize, top, topsize)
    && p in ck && ck[p].kind == Live && PayloadsKept(l, m, ck) && q == RunBase(ck, p) && b.sz == sz0 - {q}
  }

  /** How free begins. */
  lemma FreeStart(m: Mem, smallmap: bv32, treemap: bv32, b: Bins, ck: Chunks, segs: seq<Segment>, least: int, p: int,
                  dv: int, dvsize: int, top: int, topsize: int)
    requires p in ck && ck[p].kind == Live
    requires Loose(m, smallmap, treemap, b, ck, segs, least) && Settled(b.sz, ck, segs, dv, dvsize, top, topsize)
    ensures BackReady(m, ck, least, b.sz, p, dv) && NextRead(m, ck, p, top, topsize)
    ensures Held(m, smallmap, treemap, b, ck, least)
    ensures AtRun(ck, p, RunBase(ck, p), p + ck[p].size)
    ensures RunBase(ck, p) !in b.sz ==>
              && HalfMerged(m, m, smallmap, treemap, b, ck, segs, least, p, RunBase(ck, p), b.sz, dv, dvsize, top, topsize)
              && (p + ck[p].size in ck && ck[p + ck[p].size].kind != Free ==>
                   Merging(m, m, smallmap, treemap, b, ck, segs, least, p, b.sz, dv, dvsize, top, topsize))
  {
    hide Loose, Held, LayoutOk, DvOk, TopOk, Coalesced, FreeOf, RunBase;
    FreeReads(m, smallmap, treemap, b, ck, segs, least, b.sz, p, dv, dvsize, top, topsize);
    KeptSelf(m, ck);
  }

  /** Now for the chunk after. */
  lemma FreeNext(l: Mem, m: Mem, smallmap: bv32, treemap: bv32, b: Bins, ck: Chunks, segs: seq<Segment>, least: int,
                 p: int, q: int,
                 sz0: map<int, int>, dv: int, dvsize: int, top: int, topsize: int)
    requires HalfMerged(l, m, smallmap, treemap, b, ck, segs, least, p, q, sz0, dv, dvsize, top, topsize)
    ensures p in ck && NextRead(m, ck, p, top, topsize) && NextReady(m, ck, least, b.sz, p, dv, dvsize)
    ensures Held(m, smallmap, treemap, b, ck, least)
    ensures AtRun(ck, p, q, p + ck[p].size) && Loose(m, smallmap, treemap, b, ck, segs, least)
    ensures p + ck[p].size !in b.sz ==>
      Merging(l, m, smallmap, treemap, b, ck, segs, least, p, sz0, dv, dvsize, top, topsize)
  {
    hide Loose, Held, LayoutOk, Settled, RunBase;
    FreeReads(m, smallmap, treemap, b, ck, segs, least, sz0, p, dv, dvsize, top, topsize);
  }

  /** The chunk after is out of its bin as well. */
  lemma NextUnlinked(l: Mem, m: Mem, smallmap: bv32, treemap: bv32, b: Bins, n: Mem, smallmap': bv32, treemap': bv32,
                     b': Bins,
                     ck: Chunks, segs: seq<Segment>, least: int, p: int, q: int,
                     sz0: map<int, int>, dv: int, dvsize: int, top: int, topsize: int)
    requires HalfMerged(l, m, smallmap, treemap, b, ck, segs, least, p, q, sz0, dv, dvsize, top, topsize)
    requires Loose(n, smallmap', treemap', b', ck, segs, least) && PayloadsKept(m, n, ck)
    requires b'.sz == b.sz - {p + ck[p].size}
    ensures Merging(l, n, smallmap', treemap', b', ck, segs, least, p, sz0, dv, dvsize, top, topsize)
  {
    hide Loose, Settled, RunBase, PayloadsKept;
    MergingLater(l, m, n, ck);
  }

  lemma MergingLater(l: Mem, m: Mem, n: Mem, ck: Chunks)
    requires PayloadsKept(l, m, ck) && PayloadsKept(m, n, ck)
    ensures PayloadsKept(l, n, ck)
  {
    hide PayloadWord, InUse;
    forall a, w | a in ck && InUse(ck[a].kind) && PayloadWord(a, ck[a], w) ensures Rd(n, w) == Rd(l, w) {
      assert Rd(n, w) == Rd(m, w);
    }
  }

  /** The run-time checks of dlfree pass. */
  lemma FreeChecks(m: Mem, smallmap: bv32, treemap: bv32, b: Bins, ck: Chunks, segs: seq<Segment>, least: int, p: int,
                   dv: int, dvsize: int, top: int, topsize: int)
    requires p in ck && ck[p].kind == Live
    requires Loose(m, smallmap, treemap, b, ck, segs, least) && Settled(b.sz, ck, segs, dv, dvsize, top, topsize)
    ensures p >= least && IsInUse(Rd(m, p + HEAD)) && ChunkSize(Rd(m, p + HEAD)) == ck[p].size && segs != []
  {
    hide Loose, Held, LayoutOk, Settled, RunBase;
    FreeReads(m, smallmap, treemap, b, ck, segs, least, b.sz, p, dv, dvsize, top, topsize);
  }

  lemma FreedTotal(ck: Chunks, p: int)
    requires p in ck && ck[p].kind == Live
    ensures Total(LiveOf(ck)) == ck[p].size + Total(LiveOf(ck) - {p})
  {
    hide Total;
    TotalWithout(LiveOf(ck), p);
  }

  /** So do those after the merge with the chunk before. */
  lemma NextChecks(l: Mem, m: Mem, smallmap: bv32, treemap: bv32, b: Bins, ck: Chunks, segs: seq<Segment>, least: int,
                   p: int, q: int,
                   sz0: map<int, int>, dv: int, dvsize: int, top: int, topsize: int)
    requires HalfMerged(l, m, smallmap, treemap, b, ck, segs, least, p, q, sz0, dv, dvsize, top, topsize)
    ensures p in ck && q < p + ck[p].size && PrevInUse(Rd(m, p + ck[p].size + HEAD))
  {
    hide Loose, Held, LayoutOk, Settled, RunBase;
    FreeNext(l, m, smallmap, treemap, b, ck, segs, least, p, q, sz0, dv, dvsize, top, topsize);
    LooseKnown(m, smallmap, treemap, b, ck, segs, least);
    RunBefore(ck, segs, p);
  }

  lemma RunBefore(ck: Chunks, segs: seq<Segment>, p: int)
    requires LayoutOk(ck, segs) && p in ck && ck[p].kind == Live
    ensures RunBase(ck, p) < p + ck[p].size
  {
    hide LayoutOk, Shape;
    OkShape(ck, segs);
    RunEndBound(ck, p);
  }
}
