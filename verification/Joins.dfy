/** How a region that the system has handed out joins the segments. */
module Joins {
  import opened Memory
  import opened Bins
  import opened Layout
  import opened Segments
  import opened SegmentGrowth
  import opened Invariant
  import opened Grants
  import opened SystemSizes
  import opened Choice

  /** Segment `k` begins where the region ends, and is moved back to begin where the region does. */
  ghost predicate Fronts(segs: seq<Segment>, base: int, size: int, k: nat, segs': seq<Segment>) {
    k < |segs| && segs[k].base == base + size && segs' == Rebound(segs, k, base, size + segs[k].size)
  }

  ghost predicate NoneStarts(segs: seq<Segment>, addr: int) {
    forall i | 0 <= i < |segs| :: segs[i].base != addr
  }

  /** The region becomes the first segment. Or it follows the newest segment, whose top it extends, and the block is cut
      off where the top was. Or it precedes a segment, which it extends; or it is a segment of its own: and in these cases
      the block is at its beginning. `p` is where the block's chunk is. */
  ghost predicate Joined(ck: Chunks, segs: seq<Segment>, top: int, base: int, size: int, segs': seq<Segment>, p: int) {
    if segs == [] then segs' == [Segment(base, size, SEG)] && p == base
    else if base == segs[0].base + segs[0].size then
      segs' == segs[0 := Segment(segs[0].base, segs[0].size + size, segs[0].rec)] && p == top
    else
      p == base
      && if NoneStarts(segs, base + size) then top in ck && segs' == Pushed(ck, segs, top, base, size)
         else exists k: nat :: Fronts(segs, base, size, k, segs')
  }

  /** The region is put in front of a segment. */
  ghost predicate IsFront(segs: seq<Segment>, base: int, size: int) {
    segs != [] && base != segs[0].base + segs[0].size && !NoneStarts(segs, base + size)
  }

  lemma FrontIs(segs: seq<Segment>, base: int, size: int, k: nat)
    requires k < |segs| && segs[k].base == base + size && base != segs[0].base + segs[0].size
    ensures IsFront(segs, base, size)
  {
  }

  lemma FrontJoined(ck: Chunks, segs: seq<Segment>, top: int, base: int, size: int, segs': seq<Segment>, k: nat)
    requires Fronts(segs, base, size, k, segs') && base != segs[0].base + segs[0].size
    ensures Joined(ck, segs, top, base, size, segs', base)
  {
    hide Rebound, Pushed;
  }

  lemma PushJoined(ck: Chunks, segs: seq<Segment>, top: int, base: int, size: int)
    requires segs != [] && NoneStarts(segs, base + size) && base != segs[0].base + segs[0].size && top in ck
    ensures Joined(ck, segs, top, base, size, Pushed(ck, segs, top, base, size), base)
  {
    hide Rebound, Pushed;
  }

  lemma OtherJoined(ck: Chunks, segs: seq<Segment>, top: int, base: int, size: int)
    ensures segs == [] ==> Joined(ck, segs, top, base, size, [Segment(base, size, SEG)], base)
    ensures segs == [] || base == segs[0].base + segs[0].size ==> !IsFront(segs, base, size)
    ensures segs != [] && base == segs[0].base + segs[0].size ==>
      Joined(ck, segs, top, base, size, segs[0 := Segment(segs[0].base, segs[0].size + size, segs[0].rec)], top)
  {
    hide Rebound, Pushed, NoneStarts;
  }

  lemma NoneStartsAt(segs: seq<Segment>, addr: int)
    requires forall i | 0 <= i < |segs| :: segs[i].base != addr
    ensures NoneStarts(segs, addr)
  {
  }

  /** If the first segment found to end at an address is not the newest, then the newest does not end there. */
  lemma EndsOnce(m: Mem, smallmap: bv32, treemap: bv32, b: Bins, ck: Chunks, segs: seq<Segment>, least: int, k: nat)
    requires 0 < k < |segs|
    requires Loose(m, smallmap, treemap, b, ck, segs, least)
    ensures segs[k].base + segs[k].size != segs[0].base + segs[0].size
  {
    hide Loose, LayoutOk, Regions, SegmentsApart, Shape;
    LooseParts(m, smallmap, treemap, b, ck, segs, least);
    LayoutApart(ck, segs);
    RegionSize(segs, k);
    RegionSize(segs, 0);
    ApartEnds(segs, k);
  }

  lemma ApartEnds(segs: seq<Segment>, k: nat)
    requires SegmentsApart(segs) && 0 < k < |segs| && segs[0].size > 0 && segs[k].size > 0
    ensures segs[k].base + segs[k].size != segs[0].base + segs[0].size
  {
    assert segs[0].base + segs[0].size <= segs[k].base || segs[k].base + segs[k].size <= segs[0].base;
  }

  /** Where dlmalloc puts a block: in the chunk that its policy says, or, if nothing held is large enough, in the region
      that the system hands out. */
  ghost predicate Sited(m: Mem, ck: Chunks, segs: seq<Segment>, dv: int, dvsize: int, top: int, topsize: int, nb: int,
                         mp: int, segs': seq<Segment>, p: int) {
    if Fits(ck, nb) || nb < topsize then Picked(m, ck, dv, dvsize, top, nb, p) && segs' == segs
    else Joined(ck, segs, top, mp, AllocSize(nb), segs', p)
  }

  /** The same, whatever became of the segments since. */
  ghost predicate WasSited(m: Mem, ck: Chunks, segs: seq<Segment>, dv: int, dvsize: int, top: int, topsize: int,
                            nb: int, mp: int, p: int) {
    exists g :: Sited(m, ck, segs, dv, dvsize, top, topsize, nb, mp, g, p)
  }

  /** `p` is the first place in the block at `from` that is aligned and leaves nothing in front, or room for a chunk. */
  ghost predicate FirstSpot(from: int, p: int, a: int) {
    && a > 0 && SpotIn(from, p, a) && forall y | from <= y < p :: !SpotIn(from, y, a)
  }

  ghost predicate SpotIn(from: int, y: int, a: int)
    requires a > 0
  {
    (y + 16) % a == 0 && (y == from || y - from >= MIN_CHUNK_SIZE)
  }

  /** An aligned block was cut out of a block that dlmalloc gave. */
  ghost predicate CutFrom(m: Mem, ck: Chunks, segs: seq<Segment>, dv: int, dvsize: int, top: int, topsize: int, nb: int,
                          mp: int, segs': seq<Segment>, p: int, a: int) {
    exists from :: Sited(m, ck, segs, dv, dvsize, top, topsize, nb, mp, segs', from) && FirstSpot(from, p, a)
  }
}
