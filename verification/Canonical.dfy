/** The layout is determined by its live chunks: everything between them is one free run, or the top. */
module Canonical {
  import opened Layout
  import opened Segments
  import opened Moves
  import opened SegmentGrowth

  /** A layout as it is between operations: no free chunks touch, and the newest segment ends with the top. */
  ghost predicate AtRest(ck: Chunks, segs: seq<Segment>) {
    LayoutOk(ck, segs) && Coalesced(ck) && exists t :: t in ck && ck[t].kind == Top
  }

  ghost predicate Same(ck: Chunks, d: Chunks, segs: seq<Segment>) {
    AtRest(ck, segs) && AtRest(d, segs) && LiveOf(ck) == LiveOf(d)
  }

  lemma AtRestParts(ck: Chunks, segs: seq<Segment>)
    requires AtRest(ck, segs)
    ensures LayoutOk(ck, segs) && Coalesced(ck) && Shape(ck)
  {
    hide Shape, Seats, Records, Coalesced;
  }

  // ----- What two layouts with the same live chunks have in common

  lemma LiveToo(ck: Chunks, d: Chunks, segs: seq<Segment>, x: int)
    requires Same(ck, d, segs) && x in ck && ck[x].kind == Live
    ensures x in d && d[x].kind == Live && d[x].size == ck[x].size
  {
    hide AtRest;
    assert x in LiveOf(ck);
    assert x in LiveOf(d) && LiveOf(d)[x] == ck[x].size;
  }

  lemma RecordToo(ck: Chunks, d: Chunks, segs: seq<Segment>, x: int)
    requires LayoutOk(ck, segs) && LayoutOk(d, segs) && x in ck && ck[x].kind == Record
    ensures x in d && d[x].kind == Record && d[x].size == ck[x].size
  {
    hide Shape, Seats;
    assert HasSegment(segs, x + 16);
    var i :| 1 <= i < |segs| && segs[i].rec == x + 16;
    assert Recorded(ck, segs[i]) && Recorded(d, segs[i]);
  }

  /** The foot is at the end of the newest segment. */
  ghost predicate Footed(ck: Chunks, segs: seq<Segment>) {
    && |segs| > 0
    && var f := segs[0].base + segs[0].size - TOP_FOOT_SIZE;
      f in ck && ck[f].kind == Foot && ck[f].size == TOP_FOOT_SIZE
  }

  /** Every settled layout has its foot at the end of the newest segment. */
  lemma FootAt(ck: Chunks, segs: seq<Segment>)
    requires AtRest(ck, segs)
    ensures Footed(ck, segs)
  {
    hide LayoutOk, Coalesced;
    var t :| t in ck && ck[t].kind == Top;
    TopEnd(ck, segs, t);
  }

  lemma TopSize(ck: Chunks, segs: seq<Segment>, x: int)
    requires AtRest(ck, segs) && x in ck && ck[x].kind == Top
    ensures |segs| > 0 && segs[0].base <= x && x + ck[x].size == segs[0].base + segs[0].size - TOP_FOOT_SIZE
    ensures ck[x].size > 0
  {
    hide LayoutOk, Coalesced;
    TopEnd(ck, segs, x);
  }

  /** The chunk after `x` is in use. */
  ghost predicate UsedAfter(ck: Chunks, x: int) {
    && x in ck && ck[x].size > 0
    && var n := x + ck[x].size; n in ck && (ck[n].kind == Live || ck[n].kind == Record)
  }

  /** What follows a free chunk is in use. */
  lemma AfterFree(ck: Chunks, segs: seq<Segment>, x: int)
    requires AtRest(ck, segs) && x in ck && ck[x].kind == Free
    ensures UsedAfter(ck, x)
  {
    hide Shape, Seats, Records;
    NextIn(ck, x);
    SizePositive(ck, x);
  }

  lemma InUseToo(ck: Chunks, d: Chunks, segs: seq<Segment>, x: int)
    requires Same(ck, d, segs) && x in ck && (ck[x].kind == Live || ck[x].kind == Record)
    ensures x in d && d[x].kind == ck[x].kind && d[x].size == ck[x].size
  {
    hide LayoutOk, Coalesced, LiveOf;
    if ck[x].kind == Live {
      LiveToo(ck, d, segs, x);
    } else {
      RecordToo(ck, d, segs, x);
    }
  }

  // ----- Where they begin alike, they are alike

  /** A free chunk cannot end inside a free chunk of the other layout. */
  lemma NotShorter(ck: Chunks, d: Chunks, segs: seq<Segment>, x: int)
    requires Same(ck, d, segs) && x in ck && x in d && ck[x].kind == Free
    ensures x + ck[x].size >= x + d[x].size
  {
    hide AtRest, LiveOf;
    AfterFree(ck, segs, x);
    var n := x + ck[x].size;
    InUseToo(ck, d, segs, n);
    AtRestParts(d, segs);
    if n < x + d[x].size {
      NotInside(d, x, n);
    }
  }

  /** Nor is a free chunk of one layout where the other has its top. */
  lemma NotTop(ck: Chunks, d: Chunks, segs: seq<Segment>, x: int)
    requires Same(ck, d, segs) && x in ck && x in d && ck[x].kind == Free
    ensures d[x].kind != Top
  {
    hide AtRest, LiveOf, LayoutOk, Shape, Coalesced;
    if d[x].kind == Top {
      TopSize(d, segs, x);
      FootAt(ck, segs);
      AfterFree(ck, segs, x);
      NotShorter(ck, d, segs, x);
      var n, f := x + ck[x].size, segs[0].base + segs[0].size - TOP_FOOT_SIZE;
      AtRestParts(ck, segs);
      DisjointFrom(ck, x, f);
      DisjointFrom(ck, n, f);
    }
  }

  lemma KindsAlike(ck: Chunks, d: Chunks, segs: seq<Segment>, x: int)
    requires Same(ck, d, segs) && x in ck && x in d && (Last(ck[x].kind) || Last(d[x].kind) ==> ck[x].kind == d[x].kind)
    ensures ck[x].kind == d[x].kind
  {
    hide AtRest, LiveOf;
    if ck[x].kind == Live || ck[x].kind == Record {
      InUseToo(ck, d, segs, x);
    } else if d[x].kind == Live || d[x].kind == Record {
      InUseToo(d, ck, segs, x);
    } else if ck[x].kind == Free {
      NotTop(ck, d, segs, x);
    } else if d[x].kind == Free {
      NotTop(d, ck, segs, x);
    }
  }

  /** The last chunk of a segment ends with it. */
  lemma LastSize(ck: Chunks, segs: seq<Segment>, x: int, i: nat)
    requires AtRest(ck, segs) && x in ck && Last(ck[x].kind) && i < |segs|
    requires segs[i].base <= x < segs[i].base + segs[i].size
    ensures x + ck[x].size == segs[i].base + segs[i].size
  {
    hide Shape, Records, SegmentsApart, Based, Coalesced;
    var j := SeatOf(ck, segs, x);
    SizePositive(ck, x);
    OneSegment(segs, x, i, j);
  }

  lemma SizesAlike(ck: Chunks, d: Chunks, segs: seq<Segment>, x: int, i: nat)
    requires Same(ck, d, segs) && x in ck && x in d && ck[x].kind == d[x].kind && i < |segs|
    requires segs[i].base <= x < segs[i].base + segs[i].size
    ensures ck[x].size == d[x].size
  {
    hide AtRest, LiveOf;
    match ck[x].kind
    case Live => InUseToo(ck, d, segs, x);
    case Record => InUseToo(ck, d, segs, x);
    case Free =>
      NotShorter(ck, d, segs, x);
      NotShorter(d, ck, segs, x);
    case Top =>
      TopSize(ck, segs, x);
      TopSize(d, segs, x);
    case Foot =>
      LastSize(ck, segs, x, i);
      LastSize(d, segs, x, i);
    case Fence =>
      LastSize(ck, segs, x, i);
      LastSize(d, segs, x, i);
  }

  ghost predicate Agree(ck: Chunks, d: Chunks, x: int) {
    x in ck && x in d && ck[x] == d[x]
  }

  lemma AgreeBase(ck: Chunks, d: Chunks, segs: seq<Segment>, i: nat)
    requires Same(ck, d, segs) && i < |segs|
    ensures Agree(ck, d, segs[i].base)
  {
    hide LiveOf, LayoutOk, Coalesced, AtRest, Seats, Records, Shape;
    AtRestParts(ck, segs);
    AtRestParts(d, segs);
    SeatsOf(ck, segs);
    SeatsOf(d, segs);
    BasedAt(ck, segs, i);
    BasedAt(d, segs, i);
    KindsAlike(ck, d, segs, segs[i].base);
    SizesAlike(ck, d, segs, segs[i].base, i);
  }

  lemma SeatsOf(ck: Chunks, segs: seq<Segment>)
    requires LayoutOk(ck, segs)
    ensures Seats(ck, segs)
  {
    hide Shape, Seats, Records;
  }

  lemma AgreeNext(ck: Chunks, d: Chunks, segs: seq<Segment>, x: int, i: nat)
    requires Same(ck, d, segs) && Agree(ck, d, x) && !Last(ck[x].kind) && i < |segs|
    requires segs[i].base <= x && x + ck[x].size < segs[i].base + segs[i].size
    ensures Agree(ck, d, x + ck[x].size) && ck[x].size > 0
  {
    hide LiveOf, LayoutOk, Coalesced, AtRest, Shape;
    AtRestParts(ck, segs);
    AtRestParts(d, segs);
    NextIn(ck, x);
    NextIn(d, x);
    SizePositive(ck, x);
    var n := x + ck[x].size;
    KindsAlike(ck, d, segs, n);
    SizesAlike(ck, d, segs, n, i);
  }

  /** Walking from where the layouts agree, they agree on everything that one of them has. */
  lemma {:induction false} Walk(ck: Chunks, d: Chunks, segs: seq<Segment>, i: nat, x: int, a: int)
    requires Same(ck, d, segs) && i < |segs| && Agree(ck, d, x) && segs[i].base <= x <= a
    requires a in ck && Seated(segs[i], a, ck[a]) && ck[x].size > 0 && ck[a].size > 0
    ensures Agree(ck, d, a)
    decreases a - x
  {
    hide LiveOf, LayoutOk, Coalesced, AtRest, Shape;
    if x < a {
      AtRestParts(ck, segs);
      DisjointFrom(ck, x, a);
      if Last(ck[x].kind) {
        LastSize(ck, segs, x, i);
      } else {
        NextIn(ck, x);
        AgreeNext(ck, d, segs, x, i);
        SizePositive(ck, x + ck[x].size);
        Walk(ck, d, segs, i, x + ck[x].size, a);
      }
    }
  }

  lemma AgreeAll(ck: Chunks, d: Chunks, segs: seq<Segment>, a: int)
    requires Same(ck, d, segs) && a in ck
    ensures Agree(ck, d, a)
  {
    hide LiveOf, LayoutOk, Coalesced, AtRest, Shape, Seats;
    AtRestParts(ck, segs);
    SeatsOf(ck, segs);
    var i := SeatOf(ck, segs, a);
    AgreeBase(ck, d, segs, i);
    SizePositive(ck, a);
    SizePositive(ck, segs[i].base);
    Walk(ck, d, segs, i, segs[i].base, a);
  }

  /** Two settled layouts of the same segments with the same live chunks are the same layout. */
  lemma CanonicalLayout(ck: Chunks, d: Chunks, segs: seq<Segment>)
    requires AtRest(ck, segs) && AtRest(d, segs) && LiveOf(ck) == LiveOf(d)
    ensures ck == d
  {
    hide LiveOf, AtRest;
    forall a | a in ck ensures a in d && ck[a] == d[a] { AgreeAll(ck, d, segs, a); }
    forall a | a in d ensures a in ck { AgreeAll(d, ck, segs, a); }
    assert ck.Keys == d.Keys;
  }

  // ----- Freeing in any order

  lemma FreedAtRest(ck: Chunks, segs: seq<Segment>, p: int)
    requires AtRest(ck, segs) && p in ck && ck[p].kind == Live
    ensures RunBase(ck, p) in ck && AtRest(Freed(ck, p), segs) && LiveOf(Freed(ck, p)) == LiveOf(ck) - {p}
  {
    hide LayoutOk, Coalesced, Freed, LiveOf, RunBase;
    FreedOk(ck, segs, p);
    FreedCoalesced(ck, segs, p);
    FreedLive(ck, segs, p);
    var t :| t in ck && ck[t].kind == Top;
    TopStays(ck, segs, p, t);
  }

  lemma TopStays(ck: Chunks, segs: seq<Segment>, p: int, t: int)
    requires LayoutOk(ck, segs) && Coalesced(ck) && p in ck && ck[p].kind == Live && t in ck && ck[t].kind == Top
    ensures RunBase(ck, p) in ck && exists u :: u in Freed(ck, p) && Freed(ck, p)[u].kind == Top
  {
    hide LayoutOk, Coalesced, Freed, RunBase, RunEnd, Shape;
    OkShape(ck, segs);
    FreedReplaces(ck, segs, p);
    RunEndBound(ck, p);
    var q, e := RunBase(ck, p), RunEnd(ck, p);
    if q <= t < e {
      InRun(ck, p, t);
      TopRun(ck, p, t);
      assert q in Freed(ck, p) && Freed(ck, p)[q].kind == Top;
    } else {
      assert t in Freed(ck, p) && Freed(ck, p)[t].kind == Top;
    }
  }

  lemma TopRun(ck: Chunks, p: int, t: int)
    requires Shape(ck) && p in ck && ck[p].kind == Live && t in ck && ck[t].kind == Top
    requires (t == RunBase(ck, p) || t == p || t == p + ck[p].size)
    ensures RunChunk(ck, p).kind == Top
  {
    hide Shape;
    BackIn(ck, p);
  }

  /** Two blocks can be freed in either order. */
  lemma FreeCommutes(ck: Chunks, segs: seq<Segment>, p: int, q: int)
    requires AtRest(ck, segs) && p in ck && q in ck && p != q && ck[p].kind == Live && ck[q].kind == Live
    ensures FreedTwice(ck, p, q) == FreedTwice(ck, q, p)
  {
    hide AtRest, LiveOf;
    FreedBoth(ck, segs, p, q);
    FreedBoth(ck, segs, q, p);
    assert LiveOf(ck) - {p} - {q} == LiveOf(ck) - {q} - {p};
    CanonicalLayout(FreedTwice(ck, p, q), FreedTwice(ck, q, p), segs);
  }

  /** Freeing `p` where it can be freed. */
  ghost function Free1(ck: Chunks, p: int): Chunks {
    if p in ck && ck[p].kind == Live && RunBase(ck, p) in ck then Freed(ck, p) else ck
  }

  ghost function FreedTwice(ck: Chunks, p: int, q: int): Chunks {
    Free1(Free1(ck, p), q)
  }

  lemma Free1Is(ck: Chunks, segs: seq<Segment>, p: int)
    requires AtRest(ck, segs) && p in ck && ck[p].kind == Live
    ensures AtRest(Free1(ck, p), segs) && LiveOf(Free1(ck, p)) == LiveOf(ck) - {p}
  {
    hide AtRest, LiveOf, Freed;
    FreedAtRest(ck, segs, p);
  }

  lemma FreedBoth(ck: Chunks, segs: seq<Segment>, p: int, q: int)
    requires AtRest(ck, segs) && p in ck && q in ck && p != q && ck[p].kind == Live && ck[q].kind == Live
    ensures AtRest(FreedTwice(ck, p, q), segs) && LiveOf(FreedTwice(ck, p, q)) == LiveOf(ck) - {p} - {q}
  {
    hide AtRest, Free1;
    Free1Is(ck, segs, p);
    assert q in LiveOf(ck);
    assert q in LiveOf(Free1(ck, p));
    Free1Is(Free1(ck, p), segs, q);
  }

  /** Freeing a list of blocks, one after the other. */
  ghost function FreedEach(ck: Chunks, ps: seq<int>): Chunks
    decreases |ps|
  {
    if ps == [] then ck else FreedEach(Free1(ck, ps[0]), ps[1..])
  }

  ghost predicate AllLive(ck: Chunks, ps: seq<int>) {
    && (forall i | 0 <= i < |ps| :: ps[i] in LiveOf(ck))
    && (forall i, j | 0 <= i < j < |ps| :: ps[i] != ps[j])
  }

  lemma {:induction false} FreedEachIs(ck: Chunks, segs: seq<Segment>, ps: seq<int>)
    requires AtRest(ck, segs) && AllLive(ck, ps)
    ensures AtRest(FreedEach(ck, ps), segs) && LiveOf(FreedEach(ck, ps)) == LiveOf(ck) - (set x | x in ps)
    decreases |ps|
  {
    hide AtRest, Free1;
    if ps == [] {
      assert LiveOf(ck) - (set x | x in ps) == LiveOf(ck);
    } else {
      assert ps[0] in LiveOf(ck);
      Free1Is(ck, segs, ps[0]);
      FreedEachIs(Free1(ck, ps[0]), segs, ps[1..]);
      assert (set x | x in ps) == {ps[0]} + (set x | x in ps[1..]) by { assert ps == [ps[0]] + ps[1..]; }
      assert LiveOf(ck) - {ps[0]} - (set x | x in ps[1..]) == LiveOf(ck) - (set x | x in ps);
    }
  }

  /** The order in which blocks are freed does not matter: only which blocks they are. */
  lemma AnyOrder(ck: Chunks, segs: seq<Segment>, ps: seq<int>, qs: seq<int>)
    requires AtRest(ck, segs) && AllLive(ck, ps) && AllLive(ck, qs) && (set x | x in ps) == (set x | x in qs)
    ensures FreedEach(ck, ps) == FreedEach(ck, qs)
  {
    hide AtRest, LiveOf, FreedEach;
    FreedEachIs(ck, segs, ps);
    FreedEachIs(ck, segs, qs);
    CanonicalLayout(FreedEach(ck, ps), FreedEach(ck, qs), segs);
  }

  // ----- Merging adjacent blocks before freeing them

  /** The live chunk `p` absorbs the live chunk after it. */
  ghost function Merge(ck: Chunks, p: int): Chunks {
    if p in ck && p + ck[p].size in ck then Join(ck, p) else ck
  }

  ghost predicate CanMerge(ck: Chunks, p: int) {
    p in ck && ck[p].kind == Live && p + ck[p].size in ck && ck[p + ck[p].size].kind == Live
  }

  lemma MergeFacts(ck: Chunks, p: int)
    requires CanMerge(ck, p) && Coalesced(ck) && ck[p].size > 0 && (exists t :: t in ck && ck[t].kind == Top)
    ensures var n, d := p + ck[p].size, Merge(ck, p);
      && Coalesced(d) && LiveOf(d) == (LiveOf(ck) - {n})[p := ck[p].size + ck[n].size] && FreeOf(d) == FreeOf(ck)
      && p in d && d[p] == Chunk(ck[p].size + ck[n].size, Live, ck[p].prev) && exists t :: t in d && d[t].kind == Top
  {
    var t :| t in ck && ck[t].kind == Top;
    assert t in Merge(ck, p) && Merge(ck, p)[t].kind == Top;
  }

  /** Merging two blocks and freeing the whole is the same as freeing both. */
  lemma MergeThenFree(ck: Chunks, segs: seq<Segment>, p: int)
    requires AtRest(ck, segs) && CanMerge(ck, p)
    ensures AtRest(Merge(ck, p), segs)
    ensures Free1(Merge(ck, p), p) == FreedTwice(ck, p, p + ck[p].size)
  {
    hide LayoutOk, Coalesced, LiveOf, FreeOf, Free1;
    var n, d := p + ck[p].size, Merge(ck, p);
    AtRestParts(ck, segs);
    assert ck[p].size > 0 by { SizePositive(ck, p); }
    JoinOk(ck, segs, p);
    MergeFacts(ck, p);
    FreedBoth(ck, segs, p, n);
    Free1Is(d, segs, p);
    assert LiveOf(d) - {p} == LiveOf(ck) - {p} - {n};
    CanonicalLayout(Free1(d, p), FreedTwice(ck, p, n), segs);
  }
}
