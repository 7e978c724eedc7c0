/** Which chunk dlmalloc uses, and what becomes of the rest of it. */
module Choice {
  import opened Memory
  import opened BinMap
  import opened Bins
  import opened BinSteps
  import opened Tries
  import opened BestFit
  import opened Layout
  import opened Segments
  import opened Moves
  import opened Invariant
  import opened Grants

  // ----- The policy

  ghost predicate FitsAs(ck: Chunks, nb: int, y: int) {
    y in ck && ck[y].kind == Free && ck[y].size >= nb
  }

  /** A free chunk that is large enough, and than which none that is large enough is smaller. */
  ghost predicate Tightest(ck: Chunks, nb: int, p: int) {
    FitsAs(ck, nb, p) && forall y | FitsAs(ck, nb, y) :: ck[y].size >= ck[p].size
  }

  /** A binned chunk of just the size. */
  ghost predicate Exact(ck: Chunks, dv: int, nb: int, p: int) {
    p in ck && ck[p].kind == Free && p != dv && ck[p].size == nb
  }

  ghost predicate NoExact(ck: Chunks, dv: int, nb: int) {
    forall y :: !Exact(ck, dv, nb, y)
  }

  /** A small request goes to a binned chunk of just its size, or else to the designated victim if that is large enough,
      or else to a tightest chunk. A large one goes to a tightest chunk, and to the designated victim if that is one. The
      top is used only if no free chunk is large enough. */
  ghost predicate Chosen(ck: Chunks, dv: int, dvsize: int, top: int, nb: int, p: int) {
    if !Fits(ck, nb) then p == top
    else if nb >= 256 then Tightest(ck, nb, p) && (Tightest(ck, nb, dv) ==> p == dv)
    else if !NoExact(ck, dv, nb) then Exact(ck, dv, nb, p)
    else if nb <= dvsize then p == dv
    else Tightest(ck, nb, p)
  }

  /** A chunk from a small bin is the first in its ring. */
  ghost predicate FromFront(m: Mem, ck: Chunks, dv: int, p: int) {
    p in ck && ck[p].kind == Free && p != dv && 0 <= ck[p].size < 256 ==> p == Rd(m, SmallBinAt(ck[p].size / 8) + FD)
  }

  /** `nb` bytes are taken off the front of chunk `p`. What is left of the top stays the top. Of another chunk, too
      little is left to be a chunk, and then it goes along; or what is left is the new designated victim, unless the
      request was large and the chunk was binned. */
  ghost predicate Carved(ck: Chunks, dv: int, dvsize: int, top: int, topsize: int, nb: int, p: int,
                         d: Chunks, dv': int, dvsize': int, top': int, topsize': int) {
    && p in ck && p + ck[p].size in ck
    && if ck[p].kind == Top then
         d == CutTop(ck, p, nb) && dv' == dv && dvsize' == dvsize && top' == p + nb && topsize' == topsize - nb
       else
         && top' == top && topsize' == topsize
         && var rest := ck[p].size - nb;
           if rest < MIN_CHUNK_SIZE then
             d == Take(ck, p) && dv' == (if p == dv then 0 else dv) && dvsize' == (if p == dv then 0 else dvsize)
           else if p == dv || nb < 256 then d == Split(ck, p, nb) && dv' == p + nb && dvsize' == rest
           else d == Split(ck, p, nb) && dv' == dv && dvsize' == dvsize
  }

  // ----- What the bins say

  lemma Binned(sz: map<int, int>, ck: Chunks, segs: seq<Segment>, dv: int, dvsize: int, top: int, topsize: int, y: int)
    requires Settled(sz, ck, segs, dv, dvsize, top, topsize) && y in ck && ck[y].kind == Free
    ensures y != dv ==> y in sz && sz[y] == ck[y].size
  {
    hide Coalesced, TopOk;
  }

  /** A free chunk of a small size, if it is not the designated victim, has its bin marked. */
  lemma SmallSeen(m: Mem, smallmap: bv32, treemap: bv32, b: Bins, ck: Chunks, segs: seq<Segment>, least: int,
                  dv: int, dvsize: int, top: int, topsize: int, y: int)
    requires y in ck && ck[y].kind == Free && y != dv && ck[y].size < 256
    requires Loose(m, smallmap, treemap, b, ck, segs, least) && Settled(b.sz, ck, segs, dv, dvsize, top, topsize)
    ensures 0 <= ck[y].size / 8 < NBINS && Marked(smallmap, ck[y].size / 8)
  {
    hide Loose, LayoutOk, Shape, BinsReady, Settled, Marked, SmallOk;
    LooseParts(m, smallmap, treemap, b, ck, segs, least);
    ReadySmall(m, smallmap, treemap, b, least);
    Binned(b.sz, ck, segs, dv, dvsize, top, topsize, y);
    SmallMarked(m, smallmap, b, y);
  }

  lemma FreeSize(m: Mem, smallmap: bv32, treemap: bv32, b: Bins, ck: Chunks, segs: seq<Segment>, least: int, y: int)
    requires Loose(m, smallmap, treemap, b, ck, segs, least) && y in ck && ck[y].kind == Free
    ensures y != 0 && ck[y].size % 16 == 0
  {
    hide Loose, Shape;
    assert Shape(ck) by { LooseParts(m, smallmap, treemap, b, ck, segs, least); }
    ChunkIn(ck, y);
  }

  /** The first marked small bin at or above that of the size holds tightest chunks. */
  lemma FirstTightest(m: Mem, smallmap: bv32, treemap: bv32, b: Bins, ck: Chunks, segs: seq<Segment>, least: int,
                      dv: int, dvsize: int, top: int, topsize: int, nb: int, i: nat, p: int)
    requires 0 < nb < 256 && nb % 16 == 0 && dvsize < nb && FirstMarked(smallmap, nb / 8, i)
    requires p in ck && ck[p].kind == Free && ck[p].size == 8 * i
    requires Loose(m, smallmap, treemap, b, ck, segs, least) && Settled(b.sz, ck, segs, dv, dvsize, top, topsize)
    ensures Tightest(ck, nb, p)
  {
    hide Loose, Settled, Marked;
    IndexSize(nb, i);
    forall y | FitsAs(ck, nb, y) ensures ck[y].size >= 8 * i {
      if ck[y].size < 256 {
        VictimSmall(m, smallmap, treemap, b, ck, segs, least, dv, dvsize, top, topsize, nb, y);
        SmallSeen(m, smallmap, treemap, b, ck, segs, least, dv, dvsize, top, topsize, y);
        NoneMarkedBelow(ck[y].size, nb);
        Eighth(ck[y].size, i);
      }
    }
  }

  lemma Eighth(s: int, i: nat)
    requires s >= 0
    ensures s / 8 >= i ==> s >= 8 * i
  {
  }

  lemma VictimSmall(m: Mem, smallmap: bv32, treemap: bv32, b: Bins, ck: Chunks, segs: seq<Segment>, least: int,
                    dv: int, dvsize: int, top: int, topsize: int, nb: int, y: int)
    requires FitsAs(ck, nb, y) && dvsize < nb
    requires Loose(m, smallmap, treemap, b, ck, segs, least) && Settled(b.sz, ck, segs, dv, dvsize, top, topsize)
    ensures y != dv
  {
    hide Loose, Coalesced, TopOk;
    FreeSize(m, smallmap, treemap, b, ck, segs, least, y);
  }

  /** Without a marked small bin from that of the size on, a tightest tree chunk is tightest of all. */
  lemma TreeTightest(m: Mem, smallmap: bv32, treemap: bv32, b: Bins, ck: Chunks, segs: seq<Segment>, least: int,
                     dv: int, dvsize: int, top: int, topsize: int, nb: int, p: int)
    requires 0 < nb < 256 && dvsize < nb && NoneFrom(smallmap, nb / 8) && FitsAs(ck, nb, p)
    requires forall y | y in ck && ck[y].kind == Free && y != dv && ck[y].size >= 256 :: ck[y].size >= ck[p].size
    requires Loose(m, smallmap, treemap, b, ck, segs, least) && Settled(b.sz, ck, segs, dv, dvsize, top, topsize)
    ensures Tightest(ck, nb, p)
  {
    hide Loose, Settled, Marked;
    forall y | FitsAs(ck, nb, y) ensures ck[y].size >= ck[p].size {
      VictimSmall(m, smallmap, treemap, b, ck, segs, least, dv, dvsize, top, topsize, nb, y);
      if ck[y].size < 256 {
        SmallSeen(m, smallmap, treemap, b, ck, segs, least, dv, dvsize, top, topsize, y);
        NoneMarkedBelow(ck[y].size, nb);
      }
    }
  }

  lemma ExactMarked(m: Mem, smallmap: bv32, treemap: bv32, b: Bins, ck: Chunks, segs: seq<Segment>, least: int,
                    dv: int, dvsize: int, top: int, topsize: int, nb: int)
    requires 0 < nb < 256 && nb / 8 < NBINS && !Marked(smallmap, nb / 8)
    requires Loose(m, smallmap, treemap, b, ck, segs, least) && Settled(b.sz, ck, segs, dv, dvsize, top, topsize)
    ensures NoExact(ck, dv, nb)
  {
    hide Loose, Settled, Marked;
    forall y ensures !Exact(ck, dv, nb, y) {
      if Exact(ck, dv, nb, y) {
        SmallSeen(m, smallmap, treemap, b, ck, segs, least, dv, dvsize, top, topsize, y);
      }
    }
  }

  /** The designated victim is tightest if no binned chunk is tighter. */
  lemma VictimTightest(sz: map<int, int>, ck: Chunks, segs: seq<Segment>, dv: int, dvsize: int, top: int, topsize: int,
                       nb: int)
    requires 0 < nb <= dvsize
    requires forall y | y in ck && ck[y].kind == Free && y != dv && ck[y].size >= nb :: ck[y].size >= dvsize
    requires Settled(sz, ck, segs, dv, dvsize, top, topsize)
    ensures Tightest(ck, nb, dv)
  {
    hide Coalesced, TopOk;
  }

  /** The first chunk in the ring of small bin `i`. */
  ghost predicate FromBin(m: Mem, ck: Chunks, dv: int, p: int, i: nat) {
    p in ck && ck[p].kind == Free && p != dv && ck[p].size == 8 * i && p == Rd(m, SmallBinAt(i) + FD)
  }

  lemma NotVictim(sz: map<int, int>, ck: Chunks, segs: seq<Segment>, dv: int, dvsize: int, top: int, topsize: int,
                  p: int)
    requires Settled(sz, ck, segs, dv, dvsize, top, topsize) && p in sz
    ensures p != dv
  {
    hide Coalesced, TopOk;
  }

  lemma VictimWhole(sz: map<int, int>, ck: Chunks, segs: seq<Segment>, dv: int, dvsize: int, top: int, topsize: int)
    requires Settled(sz, ck, segs, dv, dvsize, top, topsize) && dvsize > 0
    ensures dv in ck && ck[dv].kind == Free && ck[dv].size == dvsize
  {
    hide Coalesced, TopOk;
  }

  lemma TopWhole(m: Mem, smallmap: bv32, treemap: bv32, b: Bins, ck: Chunks, segs: seq<Segment>, least: int,
                 dv: int, dvsize: int, top: int, topsize: int)
    requires Loose(m, smallmap, treemap, b, ck, segs, least) && Settled(b.sz, ck, segs, dv, dvsize, top, topsize)
    requires topsize > 0
    ensures top in ck && ck[top].kind == Top && top + ck[top].size in ck
  {
    hide Loose, Shape, Coalesced, DvOk;
    assert Shape(ck) by { LooseParts(m, smallmap, treemap, b, ck, segs, least); }
    NextIn(ck, top);
  }

  // ----- Carving

  lemma CarvedWhole(ck: Chunks, dv: int, dvsize: int, top: int, topsize: int, nb: int, p: int)
    requires p in ck && p + ck[p].size in ck && ck[p].kind == Free && ck[p].size - nb < MIN_CHUNK_SIZE
    ensures Carved(ck, dv, dvsize, top, topsize, nb, p, Take(ck, p), if p == dv then 0 else dv,
                   if p == dv then 0 else dvsize, top, topsize)
  {
    hide Take;
  }

  lemma CarvedFront(ck: Chunks, dv: int, dvsize: int, top: int, topsize: int, nb: int, p: int, rest: int)
    requires p in ck && p + ck[p].size in ck && ck[p].kind == Free && rest == ck[p].size - nb >= MIN_CHUNK_SIZE
    ensures p != dv && nb >= 256 ==>
      Carved(ck, dv, dvsize, top, topsize, nb, p, Split(ck, p, nb), dv, dvsize, top, topsize)
    ensures p == dv || nb < 256 ==>
      Carved(ck, dv, dvsize, top, topsize, nb, p, Split(ck, p, nb), p + nb, rest, top, topsize)
  {
    hide Split;
  }

  lemma CarvedTop(ck: Chunks, dv: int, dvsize: int, top: int, topsize: int, nb: int)
    requires top in ck && top + ck[top].size in ck && ck[top].kind == Top
    ensures Carved(ck, dv, dvsize, top, topsize, nb, top, CutTop(ck, top, nb), dv, dvsize, top + nb, topsize - nb)
  {
    hide CutTop;
  }

  // ----- Keeping to the policy

  /** The chunk `p` is the one to use, and if it is in a small bin, the one in front there. */
  ghost predicate Picked(m: Mem, ck: Chunks, dv: int, dvsize: int, top: int, nb: int, p: int) {
    Chosen(ck, dv, dvsize, top, nb, p) && FromFront(m, ck, dv, p)
  }

  lemma InFront(m: Mem, ck: Chunks, dv: int, p: int, i: nat)
    requires FromBin(m, ck, dv, p, i)
    ensures FromFront(m, ck, dv, p)
  {
  }

  lemma BinFits(m: Mem, ck: Chunks, dv: int, nb: int, p: int, i: nat)
    requires FromBin(m, ck, dv, p, i) && nb <= 8 * i
    ensures Fits(ck, nb) && FitsAs(ck, nb, p)
  {
    FitsAt(ck, nb, p);
  }

  /** From the bin of the size or the one after it: only the former has chunks. */
  lemma ExactPicked(m: Mem, smallmap: bv32, treemap: bv32, b: Bins, ck: Chunks, segs: seq<Segment>, least: int,
                    dv: int, dvsize: int, top: int, topsize: int, nb: int, i: nat, p: int)
    requires 0 < nb < 256 && nb % 16 == 0 && nb / 8 <= i <= nb / 8 + 1 && FromBin(m, ck, dv, p, i)
    requires Loose(m, smallmap, treemap, b, ck, segs, least)
    ensures Picked(m, ck, dv, dvsize, top, nb, p)
  {
    hide Loose, Fits;
    FreeSize(m, smallmap, treemap, b, ck, segs, least, p);
    SameSixteen(nb, i);
    BinFits(m, ck, dv, nb, p, i);
    InFront(m, ck, dv, p, i);
    assert Exact(ck, dv, nb, p);
  }

  lemma SameSixteen(nb: int, i: nat)
    requires nb >= 0 && nb % 16 == 0 && nb / 8 <= i <= nb / 8 + 1 && (8 * i) % 16 == 0
    ensures 8 * i == nb
  {
  }

  lemma FirstPicked(m: Mem, smallmap: bv32, treemap: bv32, b: Bins, ck: Chunks, segs: seq<Segment>, least: int,
                    dv: int, dvsize: int, top: int, topsize: int, nb: int, i: nat, p: int)
    requires 0 < nb < 256 && nb % 16 == 0 && dvsize < nb && FirstMarked(smallmap, nb / 8, i)
    requires FromBin(m, ck, dv, p, i) && NoExact(ck, dv, nb)
    requires Loose(m, smallmap, treemap, b, ck, segs, least) && Settled(b.sz, ck, segs, dv, dvsize, top, topsize)
    ensures Picked(m, ck, dv, dvsize, top, nb, p)
  {
    hide Loose, Settled, Fits, Marked, Tightest, NoExact;
    IndexSize(nb, i);
    BinFits(m, ck, dv, nb, p, i);
    InFront(m, ck, dv, p, i);
    FirstTightest(m, smallmap, treemap, b, ck, segs, least, dv, dvsize, top, topsize, nb, i, p);
  }

  lemma TreePicked(m: Mem, smallmap: bv32, treemap: bv32, b: Bins, ck: Chunks, segs: seq<Segment>, least: int,
                   dv: int, dvsize: int, top: int, topsize: int, nb: int, p: int)
    requires 0 < nb < 256 && dvsize < nb && NoneFrom(smallmap, nb / 8) && NoExact(ck, dv, nb)
    requires p in ck && ck[p].kind == Free && ck[p].size >= 256
    requires forall y | y in ck && ck[y].kind == Free && y != dv && ck[y].size >= 256 :: ck[y].size >= ck[p].size
    requires Loose(m, smallmap, treemap, b, ck, segs, least) && Settled(b.sz, ck, segs, dv, dvsize, top, topsize)
    ensures Picked(m, ck, dv, dvsize, top, nb, p)
  {
    hide Loose, Settled, Fits, Tightest, NoExact;
    FitsAt(ck, nb, p);
    TreeTightest(m, smallmap, treemap, b, ck, segs, least, dv, dvsize, top, topsize, nb, p);
  }

  /** A binned chunk that fits better than the designated victim. */
  lemma LargePicked(m: Mem, smallmap: bv32, treemap: bv32, b: Bins, ck: Chunks, segs: seq<Segment>, least: int,
                    dv: int, dvsize: int, top: int, topsize: int, nb: int, p: int)
    requires nb >= 256 && FitsAs(ck, nb, p) && p != dv
    requires forall y | y in ck && ck[y].kind == Free && y != dv && ck[y].size >= nb :: ck[y].size >= ck[p].size
    requires nb <= dvsize ==> ck[p].size < dvsize
    requires Loose(m, smallmap, treemap, b, ck, segs, least) && Settled(b.sz, ck, segs, dv, dvsize, top, topsize)
    ensures Picked(m, ck, dv, dvsize, top, nb, p)
  {
    hide Loose, Coalesced, TopOk, Fits;
    FitsAt(ck, nb, p);
    if dv in ck && ck[dv].kind == Free { FreeSize(m, smallmap, treemap, b, ck, segs, least, dv); }
  }

  /** Without a tree bin in use, no binned chunk is large. */
  lemma NothingLarge(m: Mem, smallmap: bv32, treemap: bv32, b: Bins, ck: Chunks, segs: seq<Segment>, least: int,
                     dv: int, dvsize: int, top: int, topsize: int, nb: int)
    requires nb >= 256 && treemap == 0
    requires Loose(m, smallmap, treemap, b, ck, segs, least) && Settled(b.sz, ck, segs, dv, dvsize, top, topsize)
    ensures forall y | y in ck && ck[y].kind == Free && y != dv :: ck[y].size < nb
  {
    hide Loose, LayoutOk, Shape, BinsReady, Settled, Marked, TreeOk, WellFormed;
    LooseParts(m, smallmap, treemap, b, ck, segs, least);
    ReadyTree(m, smallmap, treemap, b, least);
    WellFormedComplete(b);
    NoneMarked(treemap);
    forall y | y in ck && ck[y].kind == Free && y != dv ensures ck[y].size < nb {
      Binned(b.sz, ck, segs, dv, dvsize, top, topsize, y);
      if b.sz[y] >= 256 {
        BinMarked(m, treemap, b, y);
      }
    }
  }

  lemma VictimPicked(m: Mem, ck: Chunks, dv: int, dvsize: int, top: int, nb: int)
    requires Fits(ck, nb) && nb <= dvsize && if nb >= 256 then Tightest(ck, nb, dv) else NoExact(ck, dv, nb)
    ensures Picked(m, ck, dv, dvsize, top, nb, dv)
  {
    hide Fits, Tightest, NoExact;
  }

  lemma TopPicked(m: Mem, ck: Chunks, dv: int, dvsize: int, top: int, nb: int)
    requires !Fits(ck, nb) && top in ck && ck[top].kind == Top
    ensures Picked(m, ck, dv, dvsize, top, nb, top)
  {
    hide Fits;
  }
}
