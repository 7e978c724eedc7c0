/** Walking over all chunks of all segments, as the statistics do. */
module HeapWalk {
  import opened Memory
  import opened Bins
  import opened BinSteps
  import opened Layout
  import opened Segments
  import opened Tags
  import opened Moves
  import opened Invariant
  import opened SegmentGrowth
  import opened SystemSteps
  import opened SystemSizes

  /** A chunk that a walk which has reached address `q` of segment `i` has still to visit. */
  ghost predicate ToVisit(segs: seq<Segment>, i: nat, q: int, a: int, c: Chunk) {
    exists j :: i <= j < |segs| && Seated(segs[j], a, c) && (j == i ==> q <= a)
  }

  /** The live chunks that are still to be visited. */
  ghost function Rest(ck: Chunks, segs: seq<Segment>, i: nat, q: int): map<int, int> {
    map a | a in ck && ck[a].kind == Live && ToVisit(segs, i, q, a, ck[a]) :: ck[a].size
  }

  ghost function SegmentEnd(segs: seq<Segment>, i: nat): int {
    if i < |segs| then segs[i].base + segs[i].size else 0
  }

  lemma AtStart(ck: Chunks, segs: seq<Segment>)
    requires Seats(ck, segs)
    ensures segs != [] ==> Rest(ck, segs, 0, segs[0].base) == LiveOf(ck)
  {
    hide Based, SegmentsApart;
    if segs != [] {
      forall a | a in ck ensures ToVisit(segs, 0, segs[0].base, a, ck[a]) {
        var j := SeatOf(ck, segs, a);
      }
    }
  }

  lemma NextSegment(ck: Chunks, segs: seq<Segment>, i: nat)
    requires i < |segs| && Shape(ck)
    ensures Rest(ck, segs, i, SegmentEnd(segs, i)) == if i + 1 < |segs| then Rest(ck, segs, i + 1, segs[i + 1].base) else map[]
  {
    hide Shape;
    var e := SegmentEnd(segs, i);
    forall a | a in ck
      ensures ToVisit(segs, i, e, a, ck[a]) <==>
        i + 1 < |segs| && ToVisit(segs, i + 1, if i + 1 < |segs| then segs[i + 1].base else 0, a, ck[a])
    {
      SizePositive(ck, a);
      if ToVisit(segs, i, e, a, ck[a]) {
        var j :| i <= j < |segs| && Seated(segs[j], a, ck[a]) && (j == i ==> e <= a);
        assert Seated(segs[j], a, ck[a]);
      }
    }
  }

  /** The live chunk `a`, not `q` itself, is visited after `q` exactly if it is visited after the chunk at `q`. */
  lemma VisitLater(ck: Chunks, segs: seq<Segment>, i: nat, q: int, a: int)
    requires i < |segs| && Shape(ck) && q in ck && a in ck && a != q
    ensures ToVisit(segs, i, q, a, ck[a]) <==> ToVisit(segs, i, q + ck[q].size, a, ck[a])
  {
    hide Shape;
    SizePositive(ck, q);
    if q < a < q + ck[q].size {
      NotInside(ck, q, a);
    }
  }

  lemma VisitNow(ck: Chunks, segs: seq<Segment>, i: nat, q: int)
    requires i < |segs| && Shape(ck) && SegmentsApart(segs) && q in ck && Seated(segs[i], q, ck[q])
    ensures ToVisit(segs, i, q, q, ck[q]) && !ToVisit(segs, i, q + ck[q].size, q, ck[q])
  {
    hide Shape, SegmentsApart;
    SizePositive(ck, q);
    forall j | i <= j < |segs| && Seated(segs[j], q, ck[q]) ensures j == i {
      OneSegment(segs, q, i, j);
    }
  }

  lemma Visit(ck: Chunks, segs: seq<Segment>, i: nat, q: int)
    requires i < |segs| && q in ck && Seated(segs[i], q, ck[q])
    requires Shape(ck) && SegmentsApart(segs)
    ensures Total(Rest(ck, segs, i, q)) == Total(Rest(ck, segs, i, q + ck[q].size)) + if ck[q].kind == Live then ck[q].size else 0
  {
    hide Shape, SegmentsApart, ToVisit, Total, Seated;
    var r, t := Rest(ck, segs, i, q), Rest(ck, segs, i, q + ck[q].size);
    VisitNow(ck, segs, i, q);
    forall a | a in ck && a != q ensures ToVisit(segs, i, q, a, ck[a]) <==> ToVisit(segs, i, q + ck[q].size, a, ck[a]) {
      VisitLater(ck, segs, i, q, a);
    }
    assert r - {q} == t;
    if ck[q].kind == Live {
      TotalWithout(r, q);
    } else {
      assert r == t;
    }
  }

  /** Nothing live is left in a segment from its top, or its fenceposts, on. */
  lemma LastVisit(ck: Chunks, segs: seq<Segment>, i: nat, q: int)
    requires i < |segs| && q in ck && Seated(segs[i], q, ck[q]) && (ck[q].kind == Top || Last(ck[q].kind))
    requires LayoutOk(ck, segs)
    ensures Total(Rest(ck, segs, i, q)) == Total(Rest(ck, segs, i, SegmentEnd(segs, i)))
  {
    hide Shape, Seats, Records, SegmentsApart, Rest, Total, Seated;
    SeatsApart(ck, segs);
    Visit(ck, segs, i, q);
    if ck[q].kind == Top {
      NextIn(ck, q);
      var f := q + ck[q].size;
      assert Seated(segs[i], f, ck[f]) by { NextSeated(ck, segs, i, q); }
      Visit(ck, segs, i, f);
      EndsThere(ck, segs, i, f);
    } else {
      EndsThere(ck, segs, i, q);
    }
  }

  lemma EndsThere(ck: Chunks, segs: seq<Segment>, i: nat, q: int)
    requires i < |segs| && q in ck && Seated(segs[i], q, ck[q]) && Last(ck[q].kind)
    ensures q + ck[q].size == SegmentEnd(segs, i)
  {
  }

  lemma SeatsApart(ck: Chunks, segs: seq<Segment>)
    requires Seats(ck, segs)
    ensures SegmentsApart(segs)
  {
    hide SegmentsApart, Based, InSegs;
  }

  lemma NextSeated(ck: Chunks, segs: seq<Segment>, i: nat, q: int)
    requires i < |segs| && q in ck && Seated(segs[i], q, ck[q]) && !Last(ck[q].kind)
    requires Shape(ck) && Seats(ck, segs)
    ensures q + ck[q].size in ck && Seated(segs[i], q + ck[q].size, ck[q + ck[q].size])
  {
    hide Shape, Based, SegmentsApart, InSegs;
    NextIn(ck, q);
    var j := SeatOf(ck, segs, q + ck[q].size);
    SameSegment(ck, segs, q, i, j);
  }

  // ----- What the walk reads

  /** Where a walk stands: at a chunk of segment `i` that is not the foot after the top. */
  ghost predicate Standing(ck: Chunks, segs: seq<Segment>, i: nat, q: int) {
    i < |segs| && q in ck && Seated(segs[i], q, ck[q]) && ck[q].kind != Foot
  }

  lemma OneTop(ck: Chunks, segs: seq<Segment>, a: int, b: int)
    requires a in ck && ck[a].kind == Top && b in ck && ck[b].kind == Top
    requires LayoutOk(ck, segs)
    ensures a == b
  {
    hide Shape, Seats, Records;
    TopEnd(ck, segs, a);
    TopEnd(ck, segs, b);
    OnePrev(ck, a, b);
  }

  /** Only fenceposts have that head. */
  lemma FenceHead(a: int, c: Chunk)
    requires ChunkOk(a, c)
    ensures HeadWord(c) == FENCEPOST_HEAD <==> c.kind == Fence
  {
  }

  /** A record is in the segment it describes. */
  lemma RecordHere(ck: Chunks, segs: seq<Segment>, i: nat, q: int)
    requires Standing(ck, segs, i, q)
    requires LayoutOk(ck, segs)
    ensures (ck[q].kind == Record ==> q == segs[i].rec - 16) && (ck[q].kind == Live ==> q != segs[i].rec - 16)
  {
    hide Shape, Seats, SegmentsApart, Based;
    SeatsApart(ck, segs);
    SizePositive(ck, q);
    ChunkIn(ck, q);
    if ck[q].kind == Record {
      assert HasSegment(segs, q + 16);
      var j :| 1 <= j < |segs| && segs[j].rec == q + 16;
      assert Recorded(ck, segs[j]);
      OneSegment(segs, q, i, j);
    } else if i > 0 {
      assert Recorded(ck, segs[i]);
    }
  }

  lemma StandingAtBase(ck: Chunks, segs: seq<Segment>, i: nat)
    requires i < |segs|
    requires Shape(ck) && Seats(ck, segs)
    ensures Standing(ck, segs, i, segs[i].base)
  {
    hide Shape, SegmentsApart, InSegs;
    assert Based(ck, segs[i]);
    var b := segs[i].base;
    var j := SeatOf(ck, segs, b);
    SizePositive(ck, b);
    OneSegment(segs, b, i, j);
  }

  lemma NextStanding(ck: Chunks, segs: seq<Segment>, i: nat, q: int)
    requires Standing(ck, segs, i, q) && ck[q].kind != Top && ck[q].kind != Fence
    requires Shape(ck) && Seats(ck, segs)
    ensures Standing(ck, segs, i, q + ck[q].size) && ck[q].size > 0
  {
    hide Shape, Seats;
    NextSeated(ck, segs, i, q);
    NextIn(ck, q);
    SizePositive(ck, q);
  }

  /** What the walk reads of the chunk it stands at. */
  ghost predicate TourRead(m: Mem, ck: Chunks, segs: seq<Segment>, i: nat, q: int, top: int) {
    && Standing(ck, segs, i, q)
    && var w := Rd(m, q + HEAD);
      && segs[i].base <= q < segs[i].base + segs[i].size
      && (w == FENCEPOST_HEAD <==> ck[q].kind == Fence) && (q == top <==> ck[q].kind == Top)
      && (ck[q].kind != Fence ==> ChunkSize(w) == ck[q].size && ck[q].size > 0)
      && (ck[q].kind != Fence && ck[q].kind != Top ==> (IsInUse(w) && q != segs[i].rec - 16 <==> ck[q].kind == Live))
  }

  lemma TourReads(m: Mem, ck: Chunks, segs: seq<Segment>, i: nat, q: int, top: int)
    requires Standing(ck, segs, i, q) && Coalesced(ck) && Tagged(m, ck) && top in ck && ck[top].kind == Top
    requires LayoutOk(ck, segs)
    ensures TourRead(m, ck, segs, i, q, top)
  {
    hide LayoutOk, Shape, HeadWord, IsInUse;
    assert Shape(ck) by { LayoutParts(ck, segs); }
    ChunkIn(ck, q);
    assert TagOk(m, q, ck[q]);
    HeadBits(q, ck[q]);
    FenceHead(q, ck[q]);
    RecordHere(ck, segs, i, q);
    if ck[q].kind == Top {
      OneTop(ck, segs, q, top);
    }
  }

  // ----- Whole steps

  /** What a walk that has counted `used` bytes when it stands at `q` of segment `i` still adds up to. */
  ghost predicate CountedSoFar(ck: Chunks, segs: seq<Segment>, i: nat, q: int, used: int) {
    used + Total(Rest(ck, segs, i, q)) == Total(LiveOf(ck))
  }

  lemma TourStep(m: Mem, smallmap: bv32, treemap: bv32, b: Bins, ck: Chunks, segs: seq<Segment>, least: int,
                 dv: int, dvsize: int, top: int, topsize: int, i: nat, q: int, used: int)
    requires Standing(ck, segs, i, q) && CountedSoFar(ck, segs, i, q, used)
    requires Loose(m, smallmap, treemap, b, ck, segs, least) && Settled(b.sz, ck, segs, dv, dvsize, top, topsize)
    ensures TourRead(m, ck, segs, i, q, top)
    ensures if ck[q].kind == Top || ck[q].kind == Fence then CountedSoFar(ck, segs, i, SegmentEnd(segs, i), used)
      else
        Standing(ck, segs, i, q + ck[q].size) && CountedSoFar(ck, segs, i, q + ck[q].size, used + if ck[q].kind == Live then ck[q].size else 0)
  {
    hide Loose, LayoutOk, Shape, Seats, Records, SegmentsApart, SegList, Regions, Coalesced, Total, Rest, Tagged,
         Seated;
    LooseParts(m, smallmap, treemap, b, ck, segs, least);
    LayoutParts(ck, segs);
    SeatsApart(ck, segs);
    TourReads(m, ck, segs, i, q, top);
    if ck[q].kind == Top || ck[q].kind == Fence {
      LastVisit(ck, segs, i, q);
    } else {
      Visit(ck, segs, i, q);
      NextStanding(ck, segs, i, q);
    }
  }

  /** Segment `i` has been walked over: the next one begins, or all is counted. */
  lemma TourSegment(m: Mem, smallmap: bv32, treemap: bv32, b: Bins, ck: Chunks, segs: seq<Segment>, least: int, i: nat,
                    used: int)
    requires i < |segs| && CountedSoFar(ck, segs, i, SegmentEnd(segs, i), used)
    requires Loose(m, smallmap, treemap, b, ck, segs, least)
    ensures Rd(m, segs[i].rec + SEG_NEXT) == NextRecord(segs, i) && (NextRecord(segs, i) != 0 <==> i + 1 < |segs|)
    ensures if i + 1 < |segs| then
      Standing(ck, segs, i + 1, segs[i + 1].base) && CountedSoFar(ck, segs, i + 1, segs[i + 1].base, used)
    else used == Total(LiveOf(ck))
  {
    hide Loose, LayoutOk, Shape, Seats, Records, SegList, Regions, Rest;
    Listed(m, smallmap, treemap, b, ck, segs, least);
    LayoutParts(ck, segs);
    ListWords(m, segs, i);
    NextSegment(ck, segs, i);
    if i + 1 < |segs| {
      StandingAtBase(ck, segs, i + 1);
    }
  }

  lemma TourBegins(m: Mem, smallmap: bv32, treemap: bv32, b: Bins, ck: Chunks, segs: seq<Segment>, least: int)
    requires segs != []
    requires Loose(m, smallmap, treemap, b, ck, segs, least)
    ensures Standing(ck, segs, 0, segs[0].base) && CountedSoFar(ck, segs, 0, segs[0].base, 0) && segs[0].rec == SEG
  {
    hide Loose, LayoutOk, Shape, Seats, Records, SegList, Regions, Rest, LiveOf, Total;
    Listed(m, smallmap, treemap, b, ck, segs, least);
    LayoutParts(ck, segs);
    AtStart(ck, segs);
    StandingAtBase(ck, segs, 0);
  }

  lemma TourSegmentReads(m: Mem, smallmap: bv32, treemap: bv32, b: Bins, ck: Chunks, segs: seq<Segment>, least: int,
                         i: nat)
    requires i < |segs|
    requires Loose(m, smallmap, treemap, b, ck, segs, least)
    ensures Rd(m, segs[i].rec) == segs[i].base && Rd(m, segs[i].rec + SEG_SIZE) == segs[i].size
    ensures AlignOffset(segs[i].base + 16) == 0
  {
    hide Loose, LayoutOk, Shape, Tagged, SegList, Regions, BinsReady, FreeIn, AboveLeast;
    LooseParts(m, smallmap, treemap, b, ck, segs, least);
    ListWords(m, segs, i);
    RegionSize(segs, i);
  }

  lemma TourReadIs(m: Mem, ck: Chunks, segs: seq<Segment>, i: nat, q: int, top: int)
    requires TourRead(m, ck, segs, i, q, top)
    ensures i < |segs| && q in ck && segs[i].base <= q < segs[i].base + segs[i].size
    ensures var w := Rd(m, q + HEAD);
      if w == FENCEPOST_HEAD || q == top then ck[q].kind == Fence || ck[q].kind == Top
      else
        ck[q].kind != Fence && ck[q].kind != Top && ChunkSize(w) == ck[q].size && ck[q].size > 0 && (IsInUse(w) && q != segs[i].rec - 16 <==> ck[q].kind == Live)
  {
    hide IsInUse, Standing;
    assert Standing(ck, segs, i, q);
    StandingIn(ck, segs, i, q);
  }

  lemma StandingIn(ck: Chunks, segs: seq<Segment>, i: nat, q: int)
    requires Standing(ck, segs, i, q)
    ensures i < |segs| && q in ck
  {
  }

  lemma TotalNone()
    ensures Total(map[]) == 0
  {
  }
}
