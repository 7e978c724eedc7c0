/** The debug checker of Heap_DL.cpp: every one of its assertions holds in every valid heap. */
module Checker {
  import opened Memory
  import opened Bits
  import opened BinMap
  import opened Ring
  import opened Tries
  import opened Bins
  import opened TreeBins
  import opened TreeReads
  import opened BinSteps
  import opened Layout
  import opened Segments
  import opened Tags
  import opened Moves
  import opened Invariant
  import opened SegmentGrowth
  import opened SystemSteps
  import opened SystemSizes
  import opened HeapWalk
  import opened Heap
  import BestFit

  // ----- What the tags of a chunk say

  /** is_mmapped: neither bit set, as only in chunks mapped directly. */
  function IsMmapped(w: int): bool {
    w % 4 == 0
  }

  /** What every chunk reads, whatever its kind. */
  ghost predicate AnyRead(m: Mem, ck: Chunks, p: int, least: int) {
    && p in ck && p >= least && p % 16 == 0 && p > 0 && ck[p].prev >= 0
    && var w := Rd(m, p + HEAD);
      && w == HeadWord(ck[p])
      && (ck[p].kind != Fence ==> ChunkSize(w) == ck[p].size)
      && (ck[p].kind == Live || ck[p].kind == Record ==> IsInUse(w) && CurInUse(w) && !IsMmapped(w))
      && (ck[p].kind == Fence ==> w == FENCEPOST_HEAD)
      && (ck[p].kind != Foot ==> (PrevInUse(w) <==> ck[p].prev == 0))
      && (ck[p].kind == Foot ==> !PrevInUse(w))
      && (ck[p].kind != Fence ==> w - w % 4 == ck[p].size)
      && ((ck[p].kind == Free || ck[p].kind == Top) && ck[p].prev == 0 ==> !IsInUse(w) && !IsMmapped(w))
      && (ck[p].prev > 0 ==> Rd(m, p) == ck[p].prev)
      && ck[p].size > 0 && ck[p].size % 16 == 0
  }

  lemma HeadMods(a: int, c: Chunk)
    requires ChunkOk(a, c)
    ensures var w := HeadWord(c);
      && (c.kind == Live || c.kind == Record ==> !IsMmapped(w))
      && ((c.kind == Free || c.kind == Top) && c.prev == 0 ==> !IsInUse(w) && !IsMmapped(w))
      && (c.kind == Foot ==> !PrevInUse(w))
      && (c.kind != Fence ==> w - w % 4 == c.size)
      && (c.kind == Fence ==> w == FENCEPOST_HEAD)
  {
    if c.kind != Fence && c.kind != Foot {
      FlagBits(c.size, Flags(c));
      assert HeadWord(c) == c.size + Flags(c);
    }
  }

  lemma ReadsAny(m: Mem, smallmap: bv32, treemap: bv32, b: Bins, ck: Chunks, segs: seq<Segment>, least: int, p: int)
    requires p in ck
    requires Loose(m, smallmap, treemap, b, ck, segs, least)
    ensures AnyRead(m, ck, p, least)
  {
    hide Loose, LayoutOk, Shape, Records, SegList, Regions, BinsReady, FreeIn, HeadWord, IsInUse, IsMmapped;
    LooseParts(m, smallmap, treemap, b, ck, segs, least);
    ChunkIn(ck, p);
    assert TagOk(m, p, ck[p]);
    HeadBits(p, ck[p]);
    HeadMods(p, ck[p]);
  }

  /** How a chunk and the one after it fit together. */
  ghost predicate NextFits(ck: Chunks, p: int) {
    && p in ck && p + ck[p].size in ck
    && var n := p + ck[p].size;
      && ck[n].prev == PrevFor(ck[p]) && (ck[n].kind == Foot <==> ck[p].kind == Top)
      && (ck[n].kind == Fence <==> ck[p].kind == Record)
      && (ck[p].kind == Free || ck[p].kind == Top ==> ck[p].prev == 0)
      && (ck[p].kind == Free ==> ck[n].kind == Live || ck[n].kind == Record)
  }

  lemma FitsNext(sz: map<int, int>, ck: Chunks, segs: seq<Segment>, dv: int, dvsize: int, top: int, topsize: int,
                 p: int)
    requires p in ck && !Last(ck[p].kind)
    requires LayoutOk(ck, segs) && Settled(sz, ck, segs, dv, dvsize, top, topsize)
    ensures NextFits(ck, p)
  {
    hide Shape, Seats, Records, FreeOf, DvOk, TopOk;
    NextIn(ck, p);
    SizePositive(ck, p);
  }

  /** The free chunk before one whose pinuse bit is clear. */
  lemma BackFits(ck: Chunks, p: int)
    requires Shape(ck) && p in ck
    ensures ck[p].prev > 0 ==> BackFree(ck, p)
  {
    hide Shape;
    ChunkIn(ck, p);
  }

  // ----- Bins

  /** The ring of a marked small bin. */
  lemma SmallRing(m: Mem, smallmap: bv32, treemap: bv32, b: Bins, i: nat, least: int)
    requires BinsReady(m, smallmap, treemap, b, least) && i < NBINS
    ensures |b.small| == NBINS && (Marked(smallmap, i) <==> b.small[i] != [])
    ensures b.small[i] != [] ==> Linked(m, [SmallBinAt(i)] + b.small[i])
    ensures forall k | 0 <= k < |b.small[i]| :: b.small[i][k] in b.sz && b.sz[b.small[i][k]] == 8 * i
    ensures forall x | x in b.sz && b.sz[x] < 256 && b.sz[x] / 8 == i :: x in b.small[i]
  {
    hide Marked, Apart, TreeOk, SizeTags, AllAbove, Linked, Distinct;
    assert SmallBinOk(m, smallmap, b.small[i], i);
  }

  /** The ring of same-size chunks at a place of a trie. */
  lemma TreeRing(m: Mem, smallmap: bv32, treemap: bv32, b: Bins, p: Pos, least: int)
    requires BinsReady(m, smallmap, treemap, b, least) && p in b.trie.at
    ensures |b.trie.at[p]| > 0 && Linked(m, b.trie.at[p]) && p.i < NBINS
    ensures forall k | 0 <= k < |b.trie.at[p]| :: RingMember(m, b, p, k)
  {
    hide Marked, SmallOk, Apart, SizeTags, AllAbove, Linked, Distinct, SlotOk, WellFormed, HeadOk, TailOk;
    assert NodeOk(m, b.trie, p);
    WfShaped(b.trie, b.sz);
    PlaceBin(b.trie, p);
    forall k | 0 <= k < |b.trie.at[p]|
      ensures RingMember(m, b, p, k)
    {
      ChainIn(b.trie, b.sz, p, k);
      RingSize(b, p, k);
    }
  }

  ghost predicate RingMember(m: Mem, b: Bins, p: Pos, k: nat) {
    && p in b.trie.at && k < |b.trie.at[p]|
    && var x := b.trie.at[p][k];
      && x in b.sz && x in b.trie.loc && b.trie.loc[x] == p && b.sz[x] == SizeAt(b.trie, b.sz, p) && LargeSize(b.sz[x])
      && Rd(m, x + INDEX) == p.i && (k > 0 ==> TailOk(m, x))
  }

  lemma RingSize(b: Bins, p: Pos, k: nat)
    requires WellFormed(b.trie, b.sz) && p in b.trie.at && k < |b.trie.at[p]|
    ensures b.trie.at[p][k] in b.sz && b.sz[b.trie.at[p][k]] == SizeAt(b.trie, b.sz, p)
  {
    hide Shaped, Keyed, Unique, Complete;
    ChainIn(b.trie, b.sz, p, k);
    ChainIn(b.trie, b.sz, p, 0);
  }

  /** The link words of a binned chunk lead there and back. */
  lemma BinnedLinks(m: Mem, smallmap: bv32, treemap: bv32, b: Bins, x: int, least: int)
    requires BinsReady(m, smallmap, treemap, b, least) && x in b.sz
    ensures Rd(m, Rd(m, x + FD) + BK) == x && Rd(m, Rd(m, x + BK) + FD) == x
  {
    hide BinsReady;
    if b.sz[x] < 256 {
      var k := SmallMember(m, smallmap, treemap, b, x, least);
      SmallLinks(m, smallmap, treemap, b, b.sz[x] / 8, k, least);
    } else {
      assert x in b.trie.loc by { InTrie(m, smallmap, treemap, b, x, least); }
      var k := LargeMember(m, smallmap, treemap, b, x, least);
      var p := b.trie.loc[x];
      TreeRing(m, smallmap, treemap, b, p, least);
      RingLinks(m, b.trie.at[p], k);
    }
  }

  lemma InTrie(m: Mem, smallmap: bv32, treemap: bv32, b: Bins, x: int, least: int)
    requires BinsReady(m, smallmap, treemap, b, least) && x in b.sz && b.sz[x] >= 256
    ensures x in b.trie.loc
  {
    hide Marked, SmallOk, Apart, NodeOk, SlotOk, Shaped, Placed, Keyed, Unique, Chained;
  }

  lemma RingLinks(m: Mem, r: seq<int>, k: nat)
    requires Linked(m, r) && k < |r|
    ensures Rd(m, Rd(m, r[k] + FD) + BK) == r[k] && Rd(m, Rd(m, r[k] + BK) + FD) == r[k]
  {
    assert Link(m, r, k);
    var j := if k == 0 then |r| - 1 else k - 1;
    assert Link(m, r, j) && Nx(|r|, j) == k;
  }

  lemma RingNext(m: Mem, r: seq<int>, k: nat)
    requires Linked(m, r) && k < |r|
    ensures Rd(m, r[k] + FD) == r[Nx(|r|, k)] && Rd(m, r[Nx(|r|, k)] + BK) == r[k]
  {
    assert Link(m, r, k);
  }

  // ----- bin_find

  /** What one turn of the search for size `s` reads at the node at height `w`. */
  lemma FindTurn(m: Mem, smallmap: bv32, treemap: bv32, b: Bins, s: int, w: nat, least: int)
    requires BinsReady(m, smallmap, treemap, b, least) && Searching(b.trie, b.sz, s, w) && w <= 64
    ensures var t, h, bit := b.trie, Head(b.trie, Path(s, w)), Shl(s, 64 - w) / 0x8000_0000_0000_0000;
      var c := Rd(m, h + CHILD + 8 * bit);
      && h > 0 && ChunkSize(Rd(m, h + HEAD)) == SizeAt(t, b.sz, Path(s, w)) && Path(s, w) in t.at
      && (SizeAt(t, b.sz, Path(s, w)) != s ==>
            && w > 4 && Shl(s, 64 - (w - 1)) == (2 * Shl(s, 64 - w)) % W64
            && (c != 0 ==> Searching(t, b.sz, s, w - 1) && c == Head(t, Path(s, w - 1)))
            && (c == 0 ==> forall y | y in t.loc :: y in b.sz && b.sz[y] != s))
  {
    hide Marked, Mark, SmallOk, TreeOk, Searching, TreeIndex, Sh, Shl, SizeAt, SlotAddr, ParentWord, ChildWord, Width,
         RootQ, WellFormed, CanHang, Apart;
    Unfold(m, smallmap, treemap, b);
    SearchPlace(b.trie, b.sz, s, w);
    NodeWords(m, treemap, b, Path(s, w));
    if SizeAt(b.trie, b.sz, Path(s, w)) != s {
      StepReady(m, smallmap, treemap, b, s, w, least);
    }
  }

  /** Where chunks of one size are. */
  lemma OnePlace(m: Mem, smallmap: bv32, treemap: bv32, b: Bins, x: int, p: Pos, least: int)
    requires BinsReady(m, smallmap, treemap, b, least) && p in b.trie.at && x in b.sz
    requires b.sz[x] == SizeAt(b.trie, b.sz, p)
    ensures x in b.trie.loc && b.trie.loc[x] == p && x in b.trie.at[p]
  {
    hide Marked, SmallOk, Apart, NodeOk, SlotOk, Shaped, SizeTags, AllAbove, Path;
    ChainIn(b.trie, b.sz, p, 0) by { PlaceFull(b.trie, b.sz, p); }
    PlaceFull(b.trie, b.sz, p);
  }

  lemma PlaceFull(t: Trie, sz: map<int, int>, p: Pos)
    requires WellFormed(t, sz) && p in t.at
    ensures |t.at[p]| > 0
  {
    hide Placed, Keyed, Unique, Chained, Complete;
  }

  lemma NoneOfSize(b: Bins, x: int, s: int)
    requires WellFormed(b.trie, b.sz) && s >= 256 && forall y | y in b.trie.loc :: y in b.sz && b.sz[y] != s
    ensures x in b.sz ==> b.sz[x] != s
  {
    hide Shaped, Placed, Keyed, Unique, Chained;
  }

  lemma NotHeader(sz: map<int, int>, x: int, i: nat)
    requires Apart(sz) && x in sz && i < NBINS
    ensures x != SmallBinAt(i)
  {
  }

  lemma ReadyParts(m: Mem, smallmap: bv32, treemap: bv32, b: Bins, least: int)
    requires BinsReady(m, smallmap, treemap, b, least)
    ensures Apart(b.sz) && TreeOk(m, treemap, b) && WellFormed(b.trie, b.sz)
  {
    hide WellFormed, NodeOk, SlotOk, SmallOk, Apart;
  }

  lemma WidthIs(i: nat)
    requires i < NTREEBINS
    ensures Width(i) <= 64 && LeftShiftForTreeIndex(i) == 64 - Width(i)
  {
  }

  /** The elements after the header are the rest of the ring. */
  lemma NotAfter(r: seq<int>, b: int, x: int, k: nat, found: bool)
    requires found || (k == |r| && forall j | 0 <= j <= k :: ([b] + r)[j] != x)
    ensures found || x !in r
  {
    assert forall j | 0 <= j < |r| :: ([b] + r)[j + 1] == r[j];
  }

  /** The small half of bin_find. */
  method FindSmall(h: MallocState, x: int, size: int) returns (found: bool)
    requires 0 <= size < 256 && (x in h.bins.sz ==> h.bins.sz[x] == size) && x != SmallBinAt(size / 8)
    requires h.BinsValid()
    ensures found <==> x in h.bins.sz
  {
    hide BinsReady, Linked, Marked;
    var i := size / 8;
    var b := SmallBinAt(i);
    found := false;
    SmallRing(h.mem, h.smallmap, h.treemap, h.bins, i, h.leastAddr);
    if Marked(h.smallmap, i) {
      ghost var r := [b] + h.bins.small[i];
      ghost var k := 0;
      ReadyParts(h.mem, h.smallmap, h.treemap, h.bins, h.leastAddr);
      var p := b;
      while true
        invariant 0 <= k < |r| && p == r[k] && forall j | 0 <= j < k :: r[j] != x
        decreases |r| - k
      {
        if p == x {
          found := true;
          break;
        }
        RingNext(h.mem, r, k);
        p := Rd(h.mem, p + FD);
        if k + 1 < |r| { NotHeader(h.bins.sz, r[k + 1], i); }
        if p == b {
          break;
        }
        k := k + 1;
      }
      assert found || x !in h.bins.small[i] by { NotAfter(h.bins.small[i], b, x, k, found); }
    }
  }

  /** The ring at the end of bin_find's search: is `x` in the ring of `t`, at place `p`? */
  method FindInRing(h: MallocState, x: int, t: int, ghost p: Pos) returns (found: bool)
    requires p in h.bins.trie.at && t == Head(h.bins.trie, p)
    requires h.BinsValid()
    ensures found <==> x in h.bins.trie.at[p]
  {
    hide BinsReady, Linked, RingMember;
    TreeRing(h.mem, h.smallmap, h.treemap, h.bins, p, h.leastAddr);
    ghost var r := h.bins.trie.at[p];
    ghost var k := 0;
    var u := t;
    while true
      invariant 0 <= k < |r| && u == r[k] && forall j | 0 <= j < k :: r[j] != x
      decreases |r| - k
    {
      if u == x {
        return true;
      }
      RingNext(h.mem, r, k);
      u := Rd(h.mem, u + FD);
      if k + 1 < |r| { RingOnce(h.mem, h.smallmap, h.treemap, h.bins, p, k + 1, h.leastAddr); }
      if u == t {
        return false;
      }
      k := k + 1;
    }
  }

  lemma RingOnce(m: Mem, smallmap: bv32, treemap: bv32, b: Bins, p: Pos, k: nat, least: int)
    requires BinsReady(m, smallmap, treemap, b, least) && p in b.trie.at && 0 < k < |b.trie.at[p]|
    ensures b.trie.at[p][k] != b.trie.at[p][0]
  {
    hide Marked, SmallOk, Apart, SizeTags, AllAbove, Linked, SlotOk, WellFormed, HeadOk, TailOk;
    assert NodeOk(m, b.trie, p);
  }

  /** The large half of bin_find. */
  method FindLarge(h: MallocState, x: int, size: int) returns (found: bool)
    requires LargeSize(size) && (x in h.bins.sz ==> h.bins.sz[x] == size)
    requires h.BinsValid()
    ensures found <==> x in h.bins.sz
  {
    hide BinsReady, Marked, Searching, SizeAt, Path, TreeIndex, Width, Sh, Shl, WellFormed, TreeOk, Apart, Root,
         CanHang, SlotAddr, ParentWord;
    ghost var b := h.bins;
    TreeIndexBound(size);
    var i := TreeIndex(size);
    WidthIs(i);
    ReadyParts(h.mem, h.smallmap, h.treemap, b, h.leastAddr);
    found := false;
    if Marked(h.treemap, i) {
      SearchStart(h.mem, h.treemap, b, size);
      var t := Rd(h.mem, TreeBinAt(i));
      var bits := Shl(size, LeftShiftForTreeIndex(i));
      ghost var w := Width(i);
      FindTurn(h.mem, h.smallmap, h.treemap, b, size, w, h.leastAddr);
      while t != 0 && ChunkSize(Rd(h.mem, t + HEAD)) != size
        invariant 0 <= w <= 64
        invariant (t != 0 ==> Searching(b.trie, b.sz, size, w) && t == Head(b.trie, Path(size, w)) && bits == Shl(size, 64 - w))
        invariant t == 0 ==> x !in b.sz
        decreases t != 0, w
      {
        FindTurn(h.mem, h.smallmap, h.treemap, b, size, w, h.leastAddr);
        t := Rd(h.mem, t + CHILD + 8 * (bits / 0x8000_0000_0000_0000));
        bits := (2 * bits) % W64;
        w := w - 1;
        if t == 0 { NoneOfSize(b, x, size); }
      }
      if t != 0 {
        FindTurn(h.mem, h.smallmap, h.treemap, b, size, w, h.leastAddr);
        found := FindInRing(h, x, t, Path(size, w));
        InRing(h.mem, h.smallmap, h.treemap, b, x, Path(size, w), size, h.leastAddr);
      }
    } else {
      EmptyBin(h.mem, h.treemap, b, size);
      NoneOfSize(b, x, size);
    }
  }

  lemma InRing(m: Mem, smallmap: bv32, treemap: bv32, b: Bins, x: int, p: Pos, s: int, least: int)
    requires BinsReady(m, smallmap, treemap, b, least) && p in b.trie.at && SizeAt(b.trie, b.sz, p) == s
    requires (x in b.sz ==> b.sz[x] == s)
    ensures x in b.trie.at[p] <==> x in b.sz
  {
    hide BinsReady, SizeAt;
    if x in b.sz {
      OnePlace(m, smallmap, treemap, b, x, p, least);
    }
    if x in b.trie.at[p] {
      TreeRing(m, smallmap, treemap, b, p, least);
      var k :| 0 <= k < |b.trie.at[p]| && b.trie.at[p][k] == x;
      assert RingMember(m, b, p, k);
    }
  }

  /** A chunk that is about to be looked for in the bins. */
  lemma Seekable(m: Mem, smallmap: bv32, treemap: bv32, b: Bins, ck: Chunks, segs: seq<Segment>, least: int, x: int)
    requires x in ck && ck[x].kind != Fence
    requires Loose(m, smallmap, treemap, b, ck, segs, least)
    ensures BinsReady(m, smallmap, treemap, b, least) && AnyRead(m, ck, x, least)
    ensures ck[x].size < W64 && (x in b.sz ==> b.sz[x] == ck[x].size)
    ensures (ck[x].size < 256 ==> x != SmallBinAt(ck[x].size / 8))
  {
    hide Loose, LayoutOk, Shape, Records, Tagged, SegList, Regions, BinsReady, AnyRead, AboveLeast;
    LooseParts(m, smallmap, treemap, b, ck, segs, least);
    ReadsAny(m, smallmap, treemap, b, ck, segs, least, x);
    SizeBound(ck, segs, x);
    ChunkIn(ck, x);
  }

  /** bin_find: a chunk is found in the bins exactly if it is binned. */
  method BinFind(h: MallocState, x: int) returns (found: bool)
    requires x in h.ck && h.ck[x].kind != Fence
    requires h.Valid()
    ensures found <==> x in h.bins.sz
  {
    hide Loose, Settled, BinsReady, HeadWord, IsInUse, IsMmapped;
    Seekable(h.mem, h.smallmap, h.treemap, h.bins, h.ck, h.segs, h.leastAddr, x);
    var size := ChunkSize(Rd(h.mem, x + HEAD));
    if size < 256 {
      found := FindSmall(h, x, size);
    } else {
      found := FindLarge(h, x, size);
    }
  }

  // ----- Chunks

  /** do_check_any_chunk. Fenceposts may be misaligned there; here they are part of an aligned run. */
  method CheckAny(h: MallocState, p: int) returns (ok: bool)
    requires p in h.ck
    requires h.Valid()
    ensures ok
  {
    hide Loose, Settled, HeadWord, IsInUse, IsMmapped;
    ReadsAny(h.mem, h.smallmap, h.treemap, h.bins, h.ck, h.segs, h.leastAddr, p);
    ok := (p + 16) % 16 == 0 && p >= h.leastAddr;
  }

  /** The chunk before `p` is the free one that `p` tells of. */
  ghost predicate BackFree(ck: Chunks, p: int) {
    && p in ck
    && var q := p - ck[p].prev; q in ck && ck[q].size == ck[p].prev && ck[q].kind == Free
  }

  /** What the checks of a chunk read: the chunk, the one after it, and the one before it if that is free. */
  ghost predicate AroundRead(m: Mem, ck: Chunks, p: int, least: int) {
    && AnyRead(m, ck, p, least) && NextFits(ck, p) && AnyRead(m, ck, p + ck[p].size, least)
    && (ck[p].prev > 0 ==> BackFree(ck, p) && AnyRead(m, ck, p - ck[p].prev, least))
  }

  lemma ReadsAround(m: Mem, smallmap: bv32, treemap: bv32, b: Bins, ck: Chunks, segs: seq<Segment>, least: int,
                    dv: int, dvsize: int, top: int, topsize: int, p: int)
    requires p in ck && !Last(ck[p].kind)
    requires Loose(m, smallmap, treemap, b, ck, segs, least) && Settled(b.sz, ck, segs, dv, dvsize, top, topsize)
    ensures AroundRead(m, ck, p, least)
  {
    hide Loose, Settled, LayoutOk, Shape, Records, Tagged, SegList, Regions, BinsReady, AnyRead, AboveLeast, FreeIn;
    LooseParts(m, smallmap, treemap, b, ck, segs, least);
    FitsNext(b.sz, ck, segs, dv, dvsize, top, topsize, p);
    BackFits(ck, p);
    ReadsAny(m, smallmap, treemap, b, ck, segs, least, p);
    ReadsAny(m, smallmap, treemap, b, ck, segs, least, p + ck[p].size);
    if ck[p].prev > 0 {
      ReadsAny(m, smallmap, treemap, b, ck, segs, least, p - ck[p].prev);
    }
  }

  /** do_check_inuse_chunk */
  method CheckInuse(h: MallocState, p: int) returns (ok: bool)
    requires p in h.ck && (h.ck[p].kind == Live || h.ck[p].kind == Record)
    requires h.Valid()
    ensures ok
  {
    hide Loose, Settled, HeadWord, IsInUse, IsMmapped, CurInUse, PrevInUse;
    ReadsAround(h.mem, h.smallmap, h.treemap, h.bins, h.ck, h.segs, h.leastAddr, h.dv, h.dvsize, h.top, h.topsize, p);
    ok := CheckAny(h, p);
    var w := Rd(h.mem, p + HEAD);
    var prev := p - Rd(h.mem, p);
    ok := ok && IsInUse(w) && PrevInUse(Rd(h.mem, p + ChunkSize(w) + HEAD));
    ok := ok && (IsMmapped(w) || PrevInUse(w) || prev + ChunkSize(Rd(h.mem, prev + HEAD)) == p);
    if IsMmapped(w) {
      assert false;  // do_check_mmapped_chunk
    }
  }

  lemma BinnedOrDv(m: Mem, smallmap: bv32, treemap: bv32, b: Bins, ck: Chunks, segs: seq<Segment>, least: int,
                   dv: int, dvsize: int, top: int, topsize: int, p: int)
    requires p in ck && ck[p].kind == Free
    requires Loose(m, smallmap, treemap, b, ck, segs, least) && Settled(b.sz, ck, segs, dv, dvsize, top, topsize)
    ensures (p in b.sz <==> p != dv) && p != top && ck[p].size >= MIN_CHUNK_SIZE
    ensures p in b.sz ==> Rd(m, Rd(m, p + FD) + BK) == p && Rd(m, Rd(m, p + BK) + FD) == p
  {
    hide Loose, LayoutOk, Shape, Records, Tagged, SegList, Regions, BinsReady, AboveLeast, FreeIn, Coalesced;
    LooseParts(m, smallmap, treemap, b, ck, segs, least);
    ChunkIn(ck, p);
    assert p in b.sz <==> p != dv && p != top by { InBins(b.sz, ck, segs, dv, dvsize, top, topsize, p); }
    if p in b.sz {
      BinnedLinks(m, smallmap, treemap, b, p, least);
    }
    InBins(b.sz, ck, segs, dv, dvsize, top, topsize, p);
  }

  lemma InBins(sz: map<int, int>, ck: Chunks, segs: seq<Segment>, dv: int, dvsize: int, top: int, topsize: int, p: int)
    requires Settled(sz, ck, segs, dv, dvsize, top, topsize) && p in ck && ck[p].kind == Free
    ensures (p in sz <==> p != dv) && p != top
  {
    hide Coalesced;
    assert p in FreeOf(ck);
  }

  /** do_check_free_chunk */
  method CheckFree(h: MallocState, p: int) returns (ok: bool)
    requires p in h.ck && h.ck[p].kind == Free
    requires h.Valid()
    ensures ok
  {
    hide Loose, Settled, HeadWord, IsInUse, IsMmapped, CurInUse, PrevInUse;
    ReadsAround(h.mem, h.smallmap, h.treemap, h.bins, h.ck, h.segs, h.leastAddr, h.dv, h.dvsize, h.top, h.topsize, p);
    BinnedOrDv(h.mem, h.smallmap, h.treemap, h.bins, h.ck, h.segs, h.leastAddr, h.dv, h.dvsize, h.top, h.topsize, p);
    var w := Rd(h.mem, p + HEAD);
    var sz := ChunkSize(w);
    var next := p + sz;
    ok := CheckAny(h, p);
    ok := ok && !IsInUse(w) && !PrevInUse(Rd(h.mem, next + HEAD)) && !IsMmapped(w);
    if p != h.dv && p != h.top {
      if sz >= MIN_CHUNK_SIZE {
        ok := ok && sz % 16 == 0 && (p + 16) % 16 == 0 && Rd(h.mem, next) == sz && PrevInUse(w);
        ok := ok && (next == h.top || IsInUse(Rd(h.mem, next + HEAD)));
        ok := ok && Rd(h.mem, Rd(h.mem, p + FD) + BK) == p && Rd(h.mem, Rd(h.mem, p + BK) + FD) == p;
      } else {
        ok := ok && sz == 8;
      }
    }
  }

  lemma TopRead(m: Mem, smallmap: bv32, treemap: bv32, b: Bins, ck: Chunks, segs: seq<Segment>, least: int,
                dv: int, dvsize: int, top: int, topsize: int)
    requires segs != []
    requires Loose(m, smallmap, treemap, b, ck, segs, least) && Settled(b.sz, ck, segs, dv, dvsize, top, topsize)
    ensures top in ck && ck[top].kind == Top && ck[top].size == topsize && top !in b.sz && AroundRead(m, ck, top, least)
    ensures topsize == segs[0].base + segs[0].size - top - TOP_FOOT_SIZE && Holds(segs[0], top)
    ensures Rd(m, SEG) == segs[0].base && Rd(m, SEG + SEG_SIZE) == segs[0].size && segs[0].rec == SEG
  {
    hide Loose, LayoutOk, Shape, Records, Tagged, SegList, Regions, BinsReady, AboveLeast, Coalesced, AroundRead,
         FreeOf;
    LooseParts(m, smallmap, treemap, b, ck, segs, least);
    Listed(m, smallmap, treemap, b, ck, segs, least);
    ListWords(m, segs, 0);
    TopEnd(ck, segs, top);
    ReadsAround(m, smallmap, treemap, b, ck, segs, least, dv, dvsize, top, topsize, top);
  }

  /** do_check_top_chunk */
  method CheckTop(h: MallocState) returns (ok: bool)
    requires h.segs != []
    requires h.Valid()
    ensures ok
  {
    hide Loose, Settled, HeadWord, IsInUse, IsMmapped, CurInUse, Holds;
    TopRead(h.mem, h.smallmap, h.treemap, h.bins, h.ck, h.segs, h.leastAddr, h.dv, h.dvsize, h.top, h.topsize);
    var p := h.top;
    var sp := h.SegmentHolding(p, 0);
    var w := Rd(h.mem, p + HEAD);
    var sz := w - w % 4;
    ok := CheckAny(h, p);
    ok := ok && sp != 0 && sz == h.topsize && sz > 0 &&
      sz == (Rd(h.mem, sp) + Rd(h.mem, sp + SEG_SIZE) - p) - TOP_FOOT_SIZE;
    ok := ok && PrevInUse(w) && !PrevInUse(Rd(h.mem, p + sz + HEAD));
  }

  /** do_check_malloced_chunk, of a block just granted for a request of `s` bytes. */
  method CheckMalloced(h: MallocState, mem: int, s: int) returns (ok: bool)
    requires mem != 0 ==>
      mem - 16 in h.ck && h.ck[mem - 16].kind == Live && s <= h.ck[mem - 16].size < s + MIN_CHUNK_SIZE
    requires h.Valid()
    ensures ok
  {
    hide Loose, Settled, HeadWord, IsInUse, IsMmapped, CurInUse, PrevInUse;
    ok := true;
    if mem != 0 {
      var p := mem - 16;
      ReadsAny(h.mem, h.smallmap, h.treemap, h.bins, h.ck, h.segs, h.leastAddr, p);
      BlockLeast(h.mem, h.smallmap, h.treemap, h.bins, h.ck, h.segs, h.leastAddr, p);
      var w := Rd(h.mem, p + HEAD);
      var sz := w - w % 4;
      ok := CheckInuse(h, p);
      ok := ok && sz % 16 == 0 && sz >= MIN_CHUNK_SIZE && sz >= s;
      ok := ok && (IsMmapped(w) || sz < s + MIN_CHUNK_SIZE);
    }
  }

  lemma BlockLeast(m: Mem, smallmap: bv32, treemap: bv32, b: Bins, ck: Chunks, segs: seq<Segment>, least: int, p: int)
    requires p in ck && ck[p].kind == Live
    requires Loose(m, smallmap, treemap, b, ck, segs, least)
    ensures ck[p].size >= MIN_CHUNK_SIZE
  {
    hide Loose, LayoutOk, Shape, Records, Tagged, SegList, Regions, BinsReady, FreeIn, AboveLeast;
    LooseParts(m, smallmap, treemap, b, ck, segs, least);
    ChunkIn(ck, p);
  }

  // ----- Small bins

  /** What the check of a small bin reads of its `k`th chunk. */
  ghost predicate SmallRead(m: Mem, ck: Chunks, b: Bins, least: int, i: nat, k: nat)
  {
    && i < |b.small| && k < |b.small[i]|
    && var x := b.small[i][k];
      && AroundRead(m, ck, x, least) && ck[x].kind == Free && ck[x].size == 8 * i && x != SmallBinAt(i)
  }

  lemma SmallAt(m: Mem, smallmap: bv32, treemap: bv32, b: Bins, i: nat, k: nat, least: int)
    requires i < NBINS && i < |b.small| && k < |b.small[i]|
    requires BinsReady(m, smallmap, treemap, b, least)
    ensures var x := b.small[i][k]; x in b.sz && b.sz[x] == 8 * i && x != SmallBinAt(i)
  {
    hide BinsReady, Linked, Marked, Apart;
    SmallRing(m, smallmap, treemap, b, i, least);
    ReadyParts(m, smallmap, treemap, b, least);
    NotHeader(b.sz, b.small[i][k], i);
  }

  lemma ReadsSmall(m: Mem, smallmap: bv32, treemap: bv32, b: Bins, ck: Chunks, segs: seq<Segment>, least: int,
                   dv: int, dvsize: int, top: int, topsize: int, i: nat, k: nat)
    requires i < NBINS && i < |b.small| && k < |b.small[i]|
    requires Loose(m, smallmap, treemap, b, ck, segs, least) && Settled(b.sz, ck, segs, dv, dvsize, top, topsize)
    ensures SmallRead(m, ck, b, least, i, k)
  {
    hide Loose, Settled, LayoutOk, Shape, Records, Tagged, SegList, Regions, BinsReady, AroundRead, AboveLeast, Linked,
         Apart;
    LooseParts(m, smallmap, treemap, b, ck, segs, least);
    SmallAt(m, smallmap, treemap, b, i, k, least);
    ReadsAround(m, smallmap, treemap, b, ck, segs, least, dv, dvsize, top, topsize, b.small[i][k]);
  }

  lemma SmallIs(m: Mem, ck: Chunks, b: Bins, least: int, i: nat, k: nat)
    requires SmallRead(m, ck, b, least, i, k)
    ensures i < |b.small| && k < |b.small[i]|
    ensures var x := b.small[i][k];
      && x in ck && ck[x].kind == Free && ChunkSize(Rd(m, x + HEAD)) == 8 * i && x != SmallBinAt(i)
      && x + 8 * i in ck && (ck[x + 8 * i].kind == Live || ck[x + 8 * i].kind == Record)
  {
    hide HeadWord, IsInUse, IsMmapped, CurInUse, PrevInUse;
  }

  /** do_check_smallbin */
  method CheckSmallbin(h: MallocState, i: nat) returns (ok: bool)
    requires i < NBINS
    requires h.Valid()
    ensures ok
  {
    hide Loose, Settled, HeadWord, IsInUse, IsMmapped, CurInUse, PrevInUse, BinsReady, Linked, Marked, SmallRead;
    assert h.BinsValid() by { LooseBins(h.mem, h.smallmap, h.treemap, h.bins, h.ck, h.segs, h.leastAddr); }
    SmallRing(h.mem, h.smallmap, h.treemap, h.bins, i, h.leastAddr);
    var b := SmallBinAt(i);
    var p := Rd(h.mem, b + BK);
    var empty := !Marked(h.smallmap, i);
    ok := true;
    if !empty {
      ghost var r := [b] + h.bins.small[i];
      ghost var k := |r| - 1;
      RingNext(h.mem, r, k);
      ReadsSmall(h.mem, h.smallmap, h.treemap, h.bins, h.ck, h.segs, h.leastAddr, h.dv, h.dvsize, h.top, h.topsize, i,
                 k - 1);
      SmallIs(h.mem, h.ck, h.bins, h.leastAddr, i, k - 1);
      ok := p != b;
      while p != b
        invariant ok && 0 <= k < |r| && p == r[k] && (k == 0 <==> p == b)
        decreases k
      {
        ReadsSmall(h.mem, h.smallmap, h.treemap, h.bins, h.ck, h.segs, h.leastAddr, h.dv, h.dvsize, h.top, h.topsize, i,
                   k - 1);
        SmallIs(h.mem, h.ck, h.bins, h.leastAddr, i, k - 1);
        if k > 1 {
          ReadsSmall(h.mem, h.smallmap, h.treemap, h.bins, h.ck, h.segs, h.leastAddr, h.dv, h.dvsize, h.top, h.topsize,
                     i, k - 2);
          SmallIs(h.mem, h.ck, h.bins, h.leastAddr, i, k - 2);
        }
        RingNext(h.mem, r, k - 1);
        var size := ChunkSize(Rd(h.mem, p + HEAD));
        ok := CheckFree(h, p);
        var bk := Rd(h.mem, p + BK);
        ok := ok && size / 8 == i && (bk == b || ChunkSize(Rd(h.mem, bk + HEAD)) == size);
        var q := p + size;
        if Rd(h.mem, q + HEAD) != FENCEPOST_HEAD {
          var used := CheckInuse(h, q);
          ok := ok && used;
        }
        p := bk;
        k := k - 1;
      }
    }
  }

  // ----- Tries

  /** What the check of a tree reads at the node of place `p`. */
  ghost predicate NodeRead(m: Mem, b: Bins, p: Pos) {
    && p in b.trie.at && |b.trie.at[p]| > 0 && p.w > 0
    && var t, h := b.trie, Head(b.trie, p);
      var size, up := SizeAt(t, b.sz, p), Rd(m, h + PARENT);
      && h > 0 && h == t.at[p][0] && 256 <= size < W64 && TreeIndex(size) == p.i
      && MinSize(p.i) <= size && (p.i != NTREEBINS - 1 ==> size < MinSize(p.i + 1))
      && up != 0 && up != h
      && (Rd(m, up + CHILD) == h || Rd(m, up + CHILD + 8) == h || Rd(m, up) == h)
      && ChildRead(m, b, p, 0) && ChildRead(m, b, p, 1)
  }

  /** The same of one of its children, if it has that one. */
  ghost predicate ChildRead(m: Mem, b: Bins, p: Pos, c: nat) {
    && c < 2 && p.w > 0
    && var t, h, q := b.trie, Head(b.trie, p), Child(p, c);
      var u := Rd(m, h + CHILD + 8 * c);
      && (u != 0 <==> q in t.at)
      && (q in t.at ==> u == Head(t, q) && Rd(m, u + PARENT) == h && u != h)
  }

  lemma ReadsChild(m: Mem, smallmap: bv32, treemap: bv32, b: Bins, p: Pos, c: nat, least: int)
    requires p in b.trie.at && c < 2
    requires BinsReady(m, smallmap, treemap, b, least)
    ensures ChildRead(m, b, p, c)
  {
    hide BinsReady, WellFormed, TreeOk, Apart, Shaped;
    BestFit.ChildrenRead(m, smallmap, treemap, b, p, c, least);
    ReadyParts(m, smallmap, treemap, b, least);
    var q := Child(p, c);
    if q in b.trie.at {
      NodeWords(m, treemap, b, q);
      NodeWords(m, treemap, b, p);
      BestFit.DistinctHeads(m, smallmap, treemap, b, q, p, least);
      UpOfChild(p, c);
      ParentIs(b.trie, q);
    }
  }

  /** The words that lead to a node. */
  lemma ReadsParent(m: Mem, smallmap: bv32, treemap: bv32, b: Bins, p: Pos, least: int)
    requires p in b.trie.at
    requires BinsReady(m, smallmap, treemap, b, least)
    ensures var h := Head(b.trie, p);
      var up := Rd(m, h + PARENT);
      up > 0 && up != h && (Rd(m, up + CHILD) == h || Rd(m, up + CHILD + 8) == h || Rd(m, up) == h)
  {
    hide WellFormed, NodeOk, SmallOk, Apart, Marked, Shaped, Located, ChildWord, SizeTags, AllAbove;
    var t, h := b.trie, Head(b.trie, p);
    NodeWords(m, treemap, b, p);
    WfShaped(t, b.sz);
    PlaceBin(t, p);
    IsLocated(t, b.sz);
    if p.w < Width(p.i) {
      NodeWords(m, treemap, b, Up(p));
      ParentIs(t, p);
      OnlyHead(t, b.sz, p, Up(p));
      ChildIs(t, b.sz, p, p.q % 2);
    } else {
      assert SlotOk(m, treemap, t, p.i);
      ClearHead(b.sz, h, p.i);
    }
  }

  lemma ClearHead(sz: map<int, int>, h: int, i: nat)
    requires Apart(sz) && h in sz && i < NBINS
    ensures h != TreeBinAt(i)
  {
  }

  /** do_check_tree's view of a node. */
  lemma ReadsNode(m: Mem, smallmap: bv32, treemap: bv32, b: Bins, p: Pos, least: int)
    requires p in b.trie.at
    requires BinsReady(m, smallmap, treemap, b, least)
    ensures NodeRead(m, b, p)
  {
    hide BinsReady, WellFormed, TreeOk, Apart, ChildRead, TreeIndex, MinSize;
    ReadyParts(m, smallmap, treemap, b, least);
    NodeWords(m, treemap, b, p);
    HeadBin(b.trie, b.sz, p);
    SizeBracket(b.sz[Head(b.trie, p)]);
    ReadsParent(m, smallmap, treemap, b, p, least);
    BestFit.ChildrenRead(m, smallmap, treemap, b, p, 0, least);
    ReadsChild(m, smallmap, treemap, b, p, 0, least);
    ReadsChild(m, smallmap, treemap, b, p, 1, least);
  }

  /** The left child holds the smaller sizes. */
  lemma ChildrenOrdered(m: Mem, smallmap: bv32, treemap: bv32, b: Bins, p: Pos, least: int)
    requires p.w > 0 && Child(p, 0) in b.trie.at && Child(p, 1) in b.trie.at
    requires BinsReady(m, smallmap, treemap, b, least)
    ensures SizeAt(b.trie, b.sz, Child(p, 0)) < SizeAt(b.trie, b.sz, Child(p, 1))
  {
    hide BinsReady, TreeOk, Apart, Sh, TreeIndex, SizeAt, WellFormed;
    ReadyParts(m, smallmap, treemap, b, least);
    SizePrefix(b.trie, b.sz, Child(p, 0));
    SizePrefix(b.trie, b.sz, Child(p, 1));
    var x, y := SizeAt(b.trie, b.sz, Child(p, 0)), SizeAt(b.trie, b.sz, Child(p, 1));
    if y <= x {
      ShMono(y, x, p.w - 1);
    }
  }

  lemma SizePrefix(t: Trie, sz: map<int, int>, p: Pos)
    requires WellFormed(t, sz) && p in t.at
    ensures SizeAt(t, sz, p) >= 256 && Sh(SizeAt(t, sz, p), p.w) == p.q
  {
    hide Unique, Chained, Complete, Sh, TreeIndex;
    PlaceFull(t, sz, p);
    ChainIn(t, sz, p, 0);
  }

  /** What the check of a tree reads of the `k`th chunk in the ring at `p`. */
  ghost predicate RingRead(m: Mem, ck: Chunks, b: Bins, least: int, p: Pos, k: nat) {
    && RingMember(m, b, p, k)
    && var x := b.trie.at[p][k];
      && AroundRead(m, ck, x, least) && ck[x].kind == Free && ck[x].size == SizeAt(b.trie, b.sz, p)
      && Rd(m, Rd(m, x + FD) + BK) == x && Rd(m, Rd(m, x + BK) + FD) == x
  }

  lemma ReadsRing(m: Mem, smallmap: bv32, treemap: bv32, b: Bins, ck: Chunks, segs: seq<Segment>, least: int,
                  dv: int, dvsize: int, top: int, topsize: int, p: Pos, k: nat)
    requires p in b.trie.at && k < |b.trie.at[p]|
    requires Loose(m, smallmap, treemap, b, ck, segs, least) && Settled(b.sz, ck, segs, dv, dvsize, top, topsize)
    ensures RingRead(m, ck, b, least, p, k)
  {
    hide Loose, Settled, LayoutOk, Shape, Records, Tagged, SegList, Regions, BinsReady, AroundRead, AboveLeast, Linked,
         TailOk;
    LooseParts(m, smallmap, treemap, b, ck, segs, least);
    TreeRing(m, smallmap, treemap, b, p, least);
    assert RingMember(m, b, p, k);
    BinnedLinks(m, smallmap, treemap, b, b.trie.at[p][k], least);
    ReadsAround(m, smallmap, treemap, b, ck, segs, least, dv, dvsize, top, topsize, b.trie.at[p][k]);
  }

  /** What the recursive part of do_check_tree reads of the node at `p`. */
  ghost predicate NodeReady(m: Mem, b: Bins, p: Pos) {
    && NodeRead(m, b, p)
    && (Child(p, 0) in b.trie.at && Child(p, 1) in b.trie.at ==>
          SizeAt(b.trie, b.sz, Child(p, 0)) < SizeAt(b.trie, b.sz, Child(p, 1)))
  }

  lemma ReadyNode(m: Mem, smallmap: bv32, treemap: bv32, b: Bins, p: Pos, least: int)
    requires p in b.trie.at
    requires BinsReady(m, smallmap, treemap, b, least)
    ensures NodeReady(m, b, p)
  {
    hide BinsReady, TreeIndex, MinSize, SizeAt, ChildRead;
    ReadsNode(m, smallmap, treemap, b, p, least);
    if Child(p, 0) in b.trie.at && Child(p, 1) in b.trie.at {
      ChildrenOrdered(m, smallmap, treemap, b, p, least);
    }
  }

  /** The part of do_check_tree that looks at the one chunk of a ring with a parent: its parent and children. */
  method CheckNode(h: MallocState, u: int, ghost p: Pos) returns (ok: bool)
    requires p in h.bins.trie.at && u == Head(h.bins.trie, p)
    requires h.Valid()
    ensures ok
    decreases p.w, 0
  {
    hide Loose, Settled, HeadWord, IsInUse, IsMmapped, CurInUse, PrevInUse, BinsReady, TreeIndex, MinSize, SizeAt,
         RingRead;
    assert h.BinsValid() by { LooseBins(h.mem, h.smallmap, h.treemap, h.bins, h.ck, h.segs, h.leastAddr); }
    ReadyNode(h.mem, h.smallmap, h.treemap, h.bins, p, h.leastAddr);
    var up := Rd(h.mem, u + PARENT);
    ok := up != u && (Rd(h.mem, up + CHILD) == u || Rd(h.mem, up + CHILD + 8) == u || Rd(h.mem, up) == u);
    var c0 := Rd(h.mem, u + CHILD);
    if c0 != 0 {
      var below := CheckTree(h, c0, Child(p, 0));
      ok := ok && Rd(h.mem, c0 + PARENT) == u && c0 != u && below;
    }
    var c1 := Rd(h.mem, u + CHILD + 8);
    if c1 != 0 {
      var below := CheckTree(h, c1, Child(p, 1));
      ok := ok && Rd(h.mem, c1 + PARENT) == u && c1 != u && below;
    }
    if c0 != 0 && c1 != 0 {
      HeadSize(h.mem, h.smallmap, h.treemap, h.bins, h.ck, h.segs, h.leastAddr, Child(p, 0));
      HeadSize(h.mem, h.smallmap, h.treemap, h.bins, h.ck, h.segs, h.leastAddr, Child(p, 1));
      ok := ok && ChunkSize(Rd(h.mem, c0 + HEAD)) < ChunkSize(Rd(h.mem, c1 + HEAD));
    }
  }

  lemma HeadSize(m: Mem, smallmap: bv32, treemap: bv32, b: Bins, ck: Chunks, segs: seq<Segment>, least: int, p: Pos)
    requires p in b.trie.at
    requires Loose(m, smallmap, treemap, b, ck, segs, least)
    ensures ChunkSize(Rd(m, Head(b.trie, p) + HEAD)) == SizeAt(b.trie, b.sz, p)
  {
    hide Loose, WellFormed, NodeOk, SmallOk, Apart, Marked, SlotOk, HeadOk, Shape, FreeIn;
    LooseBins(m, smallmap, treemap, b, ck, segs, least);
    NodeWords(m, treemap, b, p);
  }

  /** do_check_tree, of the tree at place `p` */
  method CheckTree(h: MallocState, t: int, ghost p: Pos) returns (ok: bool)
    requires p in h.bins.trie.at && t == Head(h.bins.trie, p)
    requires h.Valid()
    ensures ok
    decreases p.w, 1
  {
    hide Loose, Settled, HeadWord, IsInUse, IsMmapped, CurInUse, PrevInUse, BinsReady, TreeIndex, MinSize, SizeAt,
         RingRead, NodeRead,
         ChildRead, Linked;
    assert h.BinsValid() by { LooseBins(h.mem, h.smallmap, h.treemap, h.bins, h.ck, h.segs, h.leastAddr); }
    ghost var r := h.bins.trie.at[p];
    TreeRing(h.mem, h.smallmap, h.treemap, h.bins, p, h.leastAddr);
    ReadsNode(h.mem, h.smallmap, h.treemap, h.bins, p, h.leastAddr);
    ReadsRing(h.mem, h.smallmap, h.treemap, h.bins, h.ck, h.segs, h.leastAddr, h.dv, h.dvsize, h.top, h.topsize, p, 0);
    NodeIs(h.mem, h.ck, h.bins, h.leastAddr, p);
    RingIs(h.mem, h.ck, h.bins, h.leastAddr, p, 0);
    var tindex := Rd(h.mem, t + INDEX);
    var tsize := ChunkSize(Rd(h.mem, t + HEAD));
    var idx := TreeIndex(tsize);
    ok := tindex == idx && tsize >= 256 && tsize >= MinSize(idx) && (idx == NTREEBINS - 1 || tsize < MinSize(idx + 1));
    var head := 0;
    var u := t;
    ghost var k := 0;
    while true
      invariant ok && 0 <= k < |r| && u == r[k] && head == if k == 0 then 0 else t
      decreases |r| - k
    {
      ReadsRing(h.mem, h.smallmap, h.treemap, h.bins, h.ck, h.segs, h.leastAddr, h.dv, h.dvsize, h.top, h.topsize, p,
                k);
      RingIs(h.mem, h.ck, h.bins, h.leastAddr, p, k);
      var w := Rd(h.mem, u + HEAD);
      ok := CheckAny(h, u);
      ok := ok && Rd(h.mem, u + INDEX) == tindex && ChunkSize(w) == tsize && !IsInUse(w) &&
        !PrevInUse(Rd(h.mem, u + ChunkSize(w) + HEAD));
      ok := ok && Rd(h.mem, Rd(h.mem, u + FD) + BK) == u && Rd(h.mem, Rd(h.mem, u + BK) + FD) == u;
      if Rd(h.mem, u + PARENT) == 0 {
        ok := ok && Rd(h.mem, u + CHILD) == 0 && Rd(h.mem, u + CHILD + 8) == 0;
      } else {
        ok := ok && head == 0;
        head := u;
        var node := CheckNode(h, u, p);
        ok := ok && node;
      }
      RingNext(h.mem, r, k);
      if k + 1 < |r| { RingOnce(h.mem, h.smallmap, h.treemap, h.bins, p, k + 1, h.leastAddr); }
      u := Rd(h.mem, u + FD);
      if u == t {
        break;
      }
      k := k + 1;
    }
    ok := ok && head != 0;
  }

  /** The words at the top of do_check_tree. */
  ghost predicate NodeFacts(m: Mem, b: Bins, p: Pos) {
    && p in b.trie.at && |b.trie.at[p]| > 0
    && var t := Head(b.trie, p);
      var s := ChunkSize(Rd(m, t + HEAD));
      && t == b.trie.at[p][0] && t > 0 && s >= 256 && Rd(m, t + PARENT) != 0
      && Rd(m, t + INDEX) == TreeIndex(s) && MinSize(TreeIndex(s)) <= s
      && (TreeIndex(s) != NTREEBINS - 1 ==> s < MinSize(TreeIndex(s) + 1)) && s == SizeAt(b.trie, b.sz, p)
  }

  lemma NodeIs(m: Mem, ck: Chunks, b: Bins, least: int, p: Pos)
    requires NodeRead(m, b, p) && RingRead(m, ck, b, least, p, 0)
    ensures NodeFacts(m, b, p)
  {
    hide SizeAt, MinSize, TreeIndex, ChildRead, HeadWord, IsInUse, IsMmapped, CurInUse, PrevInUse, NextFits;
  }

  lemma RingIs(m: Mem, ck: Chunks, b: Bins, least: int, p: Pos, k: nat)
    requires RingRead(m, ck, b, least, p, k)
    ensures p in b.trie.at && k < |b.trie.at[p]|
    ensures var x := b.trie.at[p][k];
      var w := Rd(m, x + HEAD);
      && x in ck && Rd(m, x + INDEX) == p.i && ChunkSize(w) == SizeAt(b.trie, b.sz, p) && !IsInUse(w)
      && !PrevInUse(Rd(m, x + ChunkSize(w) + HEAD))
      && Rd(m, Rd(m, x + FD) + BK) == x && Rd(m, Rd(m, x + BK) + FD) == x
      && (k > 0 ==> Rd(m, x + PARENT) == 0 && Rd(m, x + CHILD) == 0 && Rd(m, x + CHILD + 8) == 0)
  {
    hide SizeAt, HeadWord, IsInUse, IsMmapped, CurInUse, PrevInUse;
  }

  /** do_check_treebin */
  method CheckTreebin(h: MallocState, i: nat) returns (ok: bool)
    requires i < NBINS
    requires h.Valid()
    ensures ok
  {
    hide Loose, Settled, BinsReady, Marked, Root;
    RootRead(h.mem, h.smallmap, h.treemap, h.bins, h.ck, h.segs, h.leastAddr, i);
    var t := Rd(h.mem, TreeBinAt(i));
    var empty := !Marked(h.treemap, i);
    ok := t == 0 ==> empty;
    if !empty {
      var tree := CheckTree(h, t, Root(i));
      ok := ok && tree;
    }
  }

  lemma RootRead(m: Mem, smallmap: bv32, treemap: bv32, b: Bins, ck: Chunks, segs: seq<Segment>, least: int, i: nat)
    requires i < NBINS
    requires Loose(m, smallmap, treemap, b, ck, segs, least)
    ensures Marked(treemap, i) ==>
      Root(i) in b.trie.at && Rd(m, TreeBinAt(i)) == Head(b.trie, Root(i)) && Head(b.trie, Root(i)) > 0
  {
    hide Loose, WellFormed, NodeOk, SmallOk, Apart, Marked, HeadOk, Shape, FreeIn, Root;
    LooseBins(m, smallmap, treemap, b, ck, segs, least);
    assert SlotOk(m, treemap, b.trie, i);
    if Marked(treemap, i) {
      NodeWords(m, treemap, b, Root(i));
    }
  }

  // ----- All chunks of all segments

  /** The part of traverse_and_check's walk over segment `i` that its chunks read. */
  lemma ReadsTour(m: Mem, smallmap: bv32, treemap: bv32, b: Bins, ck: Chunks, segs: seq<Segment>, least: int,
                  dv: int, dvsize: int, top: int, topsize: int, i: nat, q: int)
    requires Standing(ck, segs, i, q)
    requires Loose(m, smallmap, treemap, b, ck, segs, least) && Settled(b.sz, ck, segs, dv, dvsize, top, topsize)
    ensures TourRead(m, ck, segs, i, q, top) && AnyRead(m, ck, q, least)
    ensures ck[q].kind != Top && ck[q].kind != Fence ==>
      Standing(ck, segs, i, q + ck[q].size) && AroundRead(m, ck, q, least)
    ensures q in b.sz ==> ck[q].kind == Free
  {
    hide Loose, LayoutOk, Shape, Seats, Records, SegmentsApart, SegList, Regions, Coalesced, Tagged, AroundRead,
         AnyRead, DvOk, FreeOf,
         BinsReady, TourRead;
    LooseParts(m, smallmap, treemap, b, ck, segs, least);
    LayoutParts(ck, segs);
    TourReads(m, ck, segs, i, q, top);
    ReadsAny(m, smallmap, treemap, b, ck, segs, least, q);
    if ck[q].kind != Top && ck[q].kind != Fence {
      NextStanding(ck, segs, i, q);
      ReadsAround(m, smallmap, treemap, b, ck, segs, least, dv, dvsize, top, topsize, q);
    }
  }

  /** The chunk that the walk has just left, if any, is in use when the one it stands at is free. */
  ghost predicate Left(ck: Chunks, base: int, q: int, last: int) {
    if last == 0 then q == base else last in ck && last + ck[last].size == q && !Last(ck[last].kind)
  }

  lemma LeftUsed(m: Mem, ck: Chunks, q: int, last: int, least: int)
    requires q in ck && ck[q].kind == Free && last in ck && last + ck[last].size == q && !Last(ck[last].kind)
    requires NextFits(ck, last) && NextFits(ck, q) && AnyRead(m, ck, last, least)
    ensures IsInUse(Rd(m, last + HEAD))
  {
    hide HeadWord, IsInUse, IsMmapped, CurInUse, PrevInUse;
  }

  lemma ReadsLast(m: Mem, smallmap: bv32, treemap: bv32, b: Bins, ck: Chunks, segs: seq<Segment>, least: int,
                  dv: int, dvsize: int, top: int, topsize: int, base: int, q: int, last: int)
    requires q in ck && ck[q].kind == Free && Left(ck, base, q, last)
    requires Loose(m, smallmap, treemap, b, ck, segs, least) && Settled(b.sz, ck, segs, dv, dvsize, top, topsize)
    ensures last == 0 || IsInUse(Rd(m, last + HEAD))
  {
    hide Loose, Settled, AnyRead, NextFits, IsInUse;
    if last != 0 {
      ReadsAround(m, smallmap, treemap, b, ck, segs, least, dv, dvsize, top, topsize, last);
      ReadsAround(m, smallmap, treemap, b, ck, segs, least, dv, dvsize, top, topsize, q);
      LeftUsed(m, ck, q, last, least);
    }
  }

  /** The newest segment ends with the top and its foot: no fenceposts are in it. */
  lemma NoFence(ck: Chunks, segs: seq<Segment>, q: int, top: int)
    requires Standing(ck, segs, 0, q) && top in ck && ck[top].kind == Top
    requires LayoutOk(ck, segs)
    ensures ck[q].kind != Fence
  {
    hide LayoutOk, Shape;
    TopEnd(ck, segs, top);
    assert Shape(ck) by { LayoutParts(ck, segs); }
    if ck[q].kind == Fence {
      OnePrev(ck, q, top + ck[top].size);
    }
  }

  lemma EndOfTour(m: Mem, smallmap: bv32, treemap: bv32, b: Bins, ck: Chunks, segs: seq<Segment>, least: int,
                  dv: int, dvsize: int, top: int, topsize: int, i: nat, q: int)
    requires Standing(ck, segs, i, q) && (ck[q].kind == Top || ck[q].kind == Fence)
    requires Loose(m, smallmap, treemap, b, ck, segs, least) && Settled(b.sz, ck, segs, dv, dvsize, top, topsize)
    ensures i == 0 ==> q - segs[0].base + topsize + TOP_FOOT_SIZE == segs[0].size
    ensures i < |segs| && q - segs[i].base <= segs[i].size
  {
    hide Loose, LayoutOk, Shape, Seats, Records, SegmentsApart, SegList, Regions, Coalesced, Tagged, DvOk, FreeOf,
         BinsReady;
    LooseParts(m, smallmap, treemap, b, ck, segs, least);
    SizePositive(ck, q);
    TopEnd(ck, segs, top);
    if i == 0 {
      NoFence(ck, segs, q, top);
    }
    if ck[q].kind == Top {
      OneTop(ck, segs, q, top);
    }
  }

  /** One turn of the walk: the checks of the chunk `q`. */
  method CheckVisited(h: MallocState, q: int, lastq: int, ghost base: int) returns (ok: bool)
    requires q in h.ck && (h.ck[q].kind == Live || h.ck[q].kind == Record || h.ck[q].kind == Free)
    requires Left(h.ck, base, q, lastq)
    requires h.Valid()
    ensures ok
  {
    hide Loose, Settled, HeadWord, IsMmapped, CurInUse, PrevInUse, IsInUse, Left;
    ReadsAround(h.mem, h.smallmap, h.treemap, h.bins, h.ck, h.segs, h.leastAddr, h.dv, h.dvsize, h.top, h.topsize, q);
    var found := BinFind(h, q);
    if IsInUse(Rd(h.mem, q + HEAD)) {
      UsedNotBinned(h.mem, h.smallmap, h.treemap, h.bins, h.ck, h.segs, h.leastAddr, q);
      ok := CheckInuse(h, q);
      ok := ok && !found;
    } else {
      BinnedOrDv(h.mem, h.smallmap, h.treemap, h.bins, h.ck, h.segs, h.leastAddr, h.dv, h.dvsize, h.top, h.topsize, q);
      ReadsLast(h.mem, h.smallmap, h.treemap, h.bins, h.ck, h.segs, h.leastAddr, h.dv, h.dvsize, h.top, h.topsize, base,
                q, lastq);
      ok := CheckFree(h, q);
      ok := ok && (q == h.dv || found) && (lastq == 0 || IsInUse(Rd(h.mem, lastq + HEAD)));
    }
  }

  lemma UsedNotBinned(m: Mem, smallmap: bv32, treemap: bv32, b: Bins, ck: Chunks, segs: seq<Segment>, least: int,
                      q: int)
    requires q in ck
    requires Loose(m, smallmap, treemap, b, ck, segs, least)
    ensures q in b.sz ==> ck[q].kind == Free
  {
    hide Loose, BinsReady, Shape;
    LooseBins(m, smallmap, treemap, b, ck, segs, least);
  }

  /** The inner loop of traverse_and_check, over segment `i`, whose record is at `s`. */
  method TraverseSegment(h: MallocState, s: int, ghost i: nat, sum0: int) returns (sum: int, ok: bool)
    requires i < |h.segs| && s == h.segs[i].rec && Standing(h.ck, h.segs, i, h.segs[i].base)
    requires h.Valid()
    ensures ok && sum - sum0 <= h.segs[i].size && (i == 0 ==> sum - sum0 + h.topsize + TOP_FOOT_SIZE == h.segs[0].size)
  {
    hide Loose, Settled, Standing, TourRead, AnyRead, AroundRead, IsInUse;
    TourSegmentReads(h.mem, h.smallmap, h.treemap, h.bins, h.ck, h.segs, h.leastAddr, i);
    var base, size := Rd(h.mem, s), Rd(h.mem, s + SEG_SIZE);
    var q, lastq := base + AlignOffset(base + 16), 0;
    sum := sum0;
    ok := FirstUsed(h, q, i);
    while true
      invariant ok && Standing(h.ck, h.segs, i, q) && Left(h.ck, h.segs[i].base, q, lastq) && sum == sum0 + q - base
      decreases h.segs[i].base + h.segs[i].size - q
    {
      ReadsTour(h.mem, h.smallmap, h.treemap, h.bins, h.ck, h.segs, h.leastAddr, h.dv, h.dvsize, h.top, h.topsize, i,
                q);
      TourReadIs(h.mem, h.ck, h.segs, i, q, h.top);
      NotFoot(h.ck, h.segs, i, q);
      if !(q >= base && q < base + size && q != h.top && Rd(h.mem, q + HEAD) != FENCEPOST_HEAD) {
        EndOfTour(h.mem, h.smallmap, h.treemap, h.bins, h.ck, h.segs, h.leastAddr, h.dv, h.dvsize, h.top, h.topsize, i,
                  q);
        break;
      }
      sum := sum + ChunkSize(Rd(h.mem, q + HEAD));
      ok := CheckVisited(h, q, lastq, h.segs[i].base);
      assert q != 0 by { AnyPositive(h.mem, h.ck, q, h.leastAddr); }
      lastq := q;
      q := q + ChunkSize(Rd(h.mem, q + HEAD));
    }
  }

  lemma AnyPositive(m: Mem, ck: Chunks, q: int, least: int)
    requires AnyRead(m, ck, q, least)
    ensures q > 0
  {
    hide HeadWord, IsInUse, IsMmapped, CurInUse, PrevInUse;
  }

  lemma NotFoot(ck: Chunks, segs: seq<Segment>, i: nat, q: int)
    requires Standing(ck, segs, i, q)
    ensures q in ck && ck[q].kind != Foot
  {
  }

  /** The pinuse bit of a segment's first chunk. */
  method FirstUsed(h: MallocState, q: int, ghost i: nat) returns (ok: bool)
    requires i < |h.segs| && q == h.segs[i].base
    requires h.Valid()
    ensures ok
  {
    hide Loose, Settled, AnyRead, PrevInUse;
    BaseUsed(h.mem, h.smallmap, h.treemap, h.bins, h.ck, h.segs, h.leastAddr, i);
    ok := PrevInUse(Rd(h.mem, q + HEAD));
  }

  lemma BaseUsed(m: Mem, smallmap: bv32, treemap: bv32, b: Bins, ck: Chunks, segs: seq<Segment>, least: int, i: nat)
    requires i < |segs|
    requires Loose(m, smallmap, treemap, b, ck, segs, least)
    ensures PrevInUse(Rd(m, segs[i].base + HEAD))
  {
    hide Loose, LayoutOk, Shape, Records, SegList, Regions, Tagged, BinsReady, FreeIn, AboveLeast, HeadWord, IsInUse,
         IsMmapped, SegmentsApart, InSegs;
    LooseParts(m, smallmap, treemap, b, ck, segs, least);
    LayoutParts(ck, segs);
    assert Based(ck, segs[i]);
    ReadsAny(m, smallmap, treemap, b, ck, segs, least, segs[i].base);
  }

  lemma {:induction false} TotalPrefix(segs: seq<Segment>, i: nat)
    requires i < |segs|
    ensures SegTotal(segs[..i + 1]) == SegTotal(segs[..i]) + segs[i].size
  {
    if i > 0 {
      TotalPrefix(segs[1..], i - 1);
      assert segs[..i + 1][1..] == segs[1..][..i] && segs[..i][1..] == segs[1..][..i - 1];
      assert segs[..i + 1][0] == segs[0] && segs[..i][0] == segs[0];
    } else {
      assert segs[..1][1..] == [];
    }
  }

  /** What traverse_and_check may have summed up before segment `i`. */
  ghost function SumBefore(segs: seq<Segment>, i: nat, topsize: int): int
    requires i <= |segs|
  {
    if i == 0 then topsize + TOP_FOOT_SIZE else SegTotal(segs[..i])
  }

  lemma NoneBefore()
    ensures SegTotal([]) == 0
  {
  }

  /** traverse_and_check: every chunk passes its checks, and together they are no more than the segments. */
  method TraverseAndCheck(h: MallocState) returns (sum: int, ok: bool)
    requires h.Valid()
    ensures ok && sum <= SegTotal(h.segs)
  {
    hide Loose, Settled, Standing, SegTotal;
    SystemReady(h.mem, h.smallmap, h.treemap, h.bins, h.ck, h.segs, h.leastAddr, h.dv, h.dvsize, h.top, h.topsize);
    sum, ok := 0, true;
    if h.top != 0 {
      var s := SEG;
      sum := sum + h.topsize + TOP_FOOT_SIZE;
      TourBegins(h.mem, h.smallmap, h.treemap, h.bins, h.ck, h.segs, h.leastAddr);
      ghost var i := 0;
      while s != 0
        invariant ok && 0 <= i <= |h.segs| && (s != 0 <==> i < |h.segs|) && sum <= SumBefore(h.segs, i, h.topsize)
        invariant s != 0 ==> s == h.segs[i].rec && Standing(h.ck, h.segs, i, h.segs[i].base)
        decreases |h.segs| - i
      {
        var good;
        sum, good := TraverseSegment(h, s, i, sum);
        ok := ok && good;
        TotalPrefix(h.segs, i);
        NoneBefore();
        NextTour(h.mem, h.smallmap, h.treemap, h.bins, h.ck, h.segs, h.leastAddr, i);
        s := Rd(h.mem, s + SEG_NEXT);
        i := i + 1;
      }
      assert h.segs[..i] == h.segs;
    }
  }

  /** The walk goes on to the next record, if there is one. */
  lemma NextTour(m: Mem, smallmap: bv32, treemap: bv32, b: Bins, ck: Chunks, segs: seq<Segment>, least: int, i: nat)
    requires i < |segs|
    requires Loose(m, smallmap, treemap, b, ck, segs, least)
    ensures Rd(m, segs[i].rec + SEG_NEXT) == NextRecord(segs, i) && (NextRecord(segs, i) != 0 <==> i + 1 < |segs|)
    ensures i + 1 < |segs| ==> Standing(ck, segs, i + 1, segs[i + 1].base)
  {
    hide Loose, LayoutOk, Shape, Seats, Records, SegList, Regions;
    Listed(m, smallmap, treemap, b, ck, segs, least);
    LayoutParts(ck, segs);
    ListWords(m, segs, i);
    if i + 1 < |segs| {
      StandingAtBase(ck, segs, i + 1);
    }
  }

  // ----- Everything

  lemma DvKind(m: Mem, smallmap: bv32, treemap: bv32, b: Bins, ck: Chunks, segs: seq<Segment>, least: int,
               dv: int, dvsize: int, top: int, topsize: int)
    requires dvsize != 0
    requires Loose(m, smallmap, treemap, b, ck, segs, least) && Settled(b.sz, ck, segs, dv, dvsize, top, topsize)
    ensures dv in ck && ck[dv].kind == Free && ck[dv].size == dvsize && dv !in b.sz && AnyRead(m, ck, dv, least)
    ensures dvsize >= MIN_CHUNK_SIZE
  {
    hide Loose, AnyRead, Coalesced, TopOk, FreeOf;
    ReadsAny(m, smallmap, treemap, b, ck, segs, least, dv);
    BinnedOrDv(m, smallmap, treemap, b, ck, segs, least, dv, dvsize, top, topsize, dv);
  }

  /** do_check_malloc_state */
  method CheckMallocState(h: MallocState) returns (ok: bool)
    requires h.Valid() && h.Accounted()
    ensures ok
  {
    hide Loose, Settled, SegTotal, HeadWord, IsInUse, IsMmapped, PrevInUse, CurInUse;
    SystemReady(h.mem, h.smallmap, h.treemap, h.bins, h.ck, h.segs, h.leastAddr, h.dv, h.dvsize, h.top, h.topsize);
    ok := true;
    for i := 0 to NBINS
      invariant ok
    {
      ok := CheckSmallbin(h, i);
    }
    for i := 0 to NBINS
      invariant ok
    {
      ok := CheckTreebin(h, i);
    }
    if h.dvsize != 0 {
      DvKind(h.mem, h.smallmap, h.treemap, h.bins, h.ck, h.segs, h.leastAddr, h.dv, h.dvsize, h.top, h.topsize);
      var sound := CheckAny(h, h.dv);
      var found := BinFind(h, h.dv);
      ok := ok && sound && h.dvsize == ChunkSize(Rd(h.mem, h.dv + HEAD)) && h.dvsize >= MIN_CHUNK_SIZE && !found;
    }
    if h.top != 0 {
      TopRead(h.mem, h.smallmap, h.treemap, h.bins, h.ck, h.segs, h.leastAddr, h.dv, h.dvsize, h.top, h.topsize);
      var sound := CheckTop(h);
      var found := BinFind(h, h.top);
      ok := ok && sound && h.topsize > 0 && !found;
    }
    var total, good := TraverseAndCheck(h);
    ok := ok && good && total <= h.footprint && h.footprint <= h.maxFootprint;
  }
}
