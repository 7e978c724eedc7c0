/** How the segments change when the heap gains system memory or gives some back. */
module SegmentGrowth {
  import opened Bins
  import opened Layout
  import opened Segments
  import opened Growth

  /** The region keeps out of every segment. */
  ghost predicate Outside(segs: seq<Segment>, base: int, size: int) {
    forall i | 0 <= i < |segs| :: segs[i].base + segs[i].size <= base || base + size <= segs[i].base
  }

  /** segs with the bounds of segment `k` changed. */
  ghost function Rebound(segs: seq<Segment>, k: nat, base: int, size: int): seq<Segment>
    requires k < |segs|
  {
    segs[k := Segment(base, size, segs[k].rec)]
  }

  lemma SeatBounds(ck: Chunks, segs: seq<Segment>, x: int) returns (i: int)
    requires Seats(ck, segs) && x in ck
    ensures 0 <= i < |segs| && Seated(segs[i], x, ck[x])
    ensures segs[i].base <= x && x + ck[x].size <= segs[i].base + segs[i].size
  {
    hide SegmentsApart;
    i := SeatOf(ck, segs, x);
  }

  lemma OutsideAway(ck: Chunks, segs: seq<Segment>, base: int, size: int)
    requires Seats(ck, segs) && Outside(segs, base, size)
    ensures Away(ck, {}, base, base + size)
  {
    hide Seats;
    forall x | x in ck ensures x + ck[x].size <= base || base + size <= x {
      var i := SeatBounds(ck, segs, x);
    }
  }

  // ----- The first segment

  lemma FirstSegment(base: int, size: int)
    requires Usable(base, size)
    ensures LayoutOk(AddTop(map[], base, size), [Segment(base, size, SEG)])
  {
    hide Shape, Usable;
    var ck, segs := AddTop(map[], base, size), [Segment(base, size, SEG)];
    EmptyShape();
    AddTopShape(map[], base, size);
    forall a | a in ck ensures InSegs(segs, a, ck[a]) {
      assert Seated(segs[0], a, ck[a]) by { TopSeated(base, size, SEG); }
    }
    assert Based(ck, segs[0]) by { TopSeated(base, size, SEG); }
  }

  lemma EmptyShape()
    ensures Shape(map[])
  {
  }

  lemma TopSeated(base: int, size: int, rec: int)
    requires Usable(base, size)
    ensures var s := Segment(base, size, rec);
      && Seated(s, base, Chunk(size - TOP_FOOT_SIZE, Top, 0)) && Seated(s, base + size - TOP_FOOT_SIZE, TOP_FOOT)
      && size > 0 && base != base + size - TOP_FOOT_SIZE
  {
  }

  // ----- A segment extended downwards

  lemma PrependLayout(ck: Chunks, segs: seq<Segment>, k: nat, base: int, size: int)
    requires LayoutOk(ck, segs) && k < |segs| && Usable(base, size) && Outside(segs, base, size)
    requires base + size == segs[k].base
    ensures LayoutOk(Prepend(ck, base, size), Rebound(segs, k, base, size + segs[k].size))
    ensures base !in ck && base + size in ck
  {
    hide Shape, Usable, Seats, Records;
    var d, segs' := Prepend(ck, base, size), Rebound(segs, k, base, size + segs[k].size);
    OutsideAway(ck, segs, base, size);
    assert Based(ck, segs[k]) by { BasedAt(ck, segs, k); }
    PrependShape(ck, base, size);
    assert size > 0 && base !in ck by { AwayNew(ck, base, size); }
    PrependSeats(ck, segs, k, base, size);
    PrependRecords(ck, segs, k, base, size);
  }

  lemma BasedAt(ck: Chunks, segs: seq<Segment>, k: nat)
    requires Seats(ck, segs) && k < |segs|
    ensures Based(ck, segs[k])
  {
  }

  lemma AwayNew(ck: Chunks, base: int, size: int)
    requires Shape(ck) && Away(ck, {}, base, base + size) && Usable(base, size)
    ensures size > 0 && base !in ck
  {
    hide Shape;
    if base in ck { SizePositive(ck, base); }
  }

  lemma PrependSeats(ck: Chunks, segs: seq<Segment>, k: nat, base: int, size: int)
    requires Seats(ck, segs) && k < |segs| && size > 0 && Outside(segs, base, size) && base + size == segs[k].base
    requires base !in ck
    ensures Seats(Prepend(ck, base, size), Rebound(segs, k, base, size + segs[k].size))
  {
    hide SegmentsApart, InSegs;
    var d, segs' := Prepend(ck, base, size), Rebound(segs, k, base, size + segs[k].size);
    assert Based(ck, segs[k]);
    forall i | 0 <= i < |segs'| ensures Based(d, segs'[i]) { assert Based(ck, segs[i]); }
    ReboundApart(segs, k, base, size + segs[k].size);
    forall x | x in d ensures InSegs(segs', x, d[x]) {
      if x == base {
        SitsIn(segs', k, x, d[x]);
      } else {
        var i := SeatOf(ck, segs, x);
        SitsIn(segs', i, x, d[x]);
      }
    }
  }

  /** The new bounds of segment `k` keep out of the other segments. */
  ghost predicate OutsideOthers(segs: seq<Segment>, k: nat, base: int, size: int) {
    forall i | 0 <= i < |segs| && i != k :: segs[i].base + segs[i].size <= base || base + size <= segs[i].base
  }

  lemma ReboundApart(segs: seq<Segment>, k: nat, base: int, size: int)
    requires SegmentsApart(segs) && k < |segs| && segs[k].size >= 0 && (forall i | 0 <= i < |segs| :: segs[i].size > 0)
    requires (base + size == segs[k].base + segs[k].size && base <= segs[k].base &&
      Outside(segs, base, segs[k].base - base)) || OutsideOthers(segs, k, base, size)
    ensures SegmentsApart(Rebound(segs, k, base, size))
  {
  }

  lemma ReboundRecorded(ck: Chunks, d: Chunks, segs: seq<Segment>, k: nat, base: int, size: int, i: nat)
    requires k < |segs| && 1 <= i < |segs| && Recorded(ck, segs[i]) && base <= segs[k].base
    requires base + size == segs[k].base + segs[k].size
    requires forall x | x in ck && ck[x].kind == Record :: x in d && d[x].kind == Record && d[x].size == ck[x].size
    ensures Recorded(d, Rebound(segs, k, base, size)[i])
  {
  }

  lemma PrependRecords(ck: Chunks, segs: seq<Segment>, k: nat, base: int, size: int)
    requires Records(ck, segs) && k < |segs| && size > 0 && base + size == segs[k].base && base !in ck
    ensures Records(Prepend(ck, base, size), Rebound(segs, k, base, size + segs[k].size))
  {
    hide Recorded;
    var d, segs' := Prepend(ck, base, size), Rebound(segs, k, base, size + segs[k].size);
    forall i | 1 <= i < |segs'| ensures Recorded(d, segs'[i]) {
      ReboundRecorded(ck, d, segs, k, base, size + segs[k].size, i);
    }
    forall a | a in d && d[a].kind == Record ensures HasSegment(segs', a + 16) {
      assert HasSegment(segs, a + 16);
      var i :| 1 <= i < |segs| && segs[i].rec == a + 16;
      assert segs'[i].rec == a + 16;
    }
  }

  // ----- The newest segment made longer or shorter

  /** The top and its foot end the newest segment. */
  lemma TopEnd(ck: Chunks, segs: seq<Segment>, a: int)
    requires LayoutOk(ck, segs) && a in ck && ck[a].kind == Top
    ensures |segs| > 0 && a + ck[a].size in ck && ck[a + ck[a].size] == TOP_FOOT
    ensures a + ck[a].size + TOP_FOOT_SIZE == segs[0].base + segs[0].size && segs[0].base <= a && ck[a].size > 0
    ensures ck[a].size % 16 == 0
  {
    hide LayoutOk, Shape, SegmentsApart, Based, InSegs;
    TopSeat(ck, segs, a);
    TopThenFoot(ck, a);
    var i := SeatOf(ck, segs, a + ck[a].size);
    SameSegment(ck, segs, a, 0, i);
  }

  lemma TopSeat(ck: Chunks, segs: seq<Segment>, a: int)
    requires LayoutOk(ck, segs) && a in ck && ck[a].kind == Top
    ensures |segs| > 0 && Seated(segs[0], a, ck[a]) && Shape(ck) && Seats(ck, segs)
  {
    hide Shape, Seats, Seated;
  }

  /** Nothing but the foot lies after the top in its segment. */
  lemma NothingAfterTop(ck: Chunks, segs: seq<Segment>, a: int, x: int)
    requires LayoutOk(ck, segs) && a in ck && ck[a].kind == Top && x in ck && x != a && x != a + ck[a].size
    ensures |segs| > 0
    ensures x + ck[x].size <= a || exists i :: 1 <= i < |segs| && Seated(segs[i], x, ck[x])
  {
    hide Shape, SegmentsApart, Records, Based;
    TopEnd(ck, segs, a);
    var i := SeatOf(ck, segs, x);
    DisjointFrom(ck, x, a);
    DisjointFrom(ck, x, a + ck[a].size);
  }

  lemma DisjointFrom(ck: Chunks, x: int, a: int)
    requires Shape(ck) && x in ck && a in ck && x != a
    ensures x + ck[x].size <= a || a + ck[a].size <= x
    ensures ck[x].size > 0 && ck[a].size > 0
  {
    hide NextOk, PrevOk, ClearOfState;
    assert ChunkOk(x, ck[x]) && ChunkOk(a, ck[a]);
  }

  lemma ResizeAway(ck: Chunks, segs: seq<Segment>, a: int, s: int)
    requires LayoutOk(ck, segs) && a in ck && ck[a].kind == Top && s > 0
    requires |segs| > 0 && OutsideOthers(segs, 0, segs[0].base, a + s + TOP_FOOT_SIZE - segs[0].base)
    ensures Away(ck, {a, a + ck[a].size}, a, a + s + TOP_FOOT_SIZE)
  {
    hide LayoutOk, Shape, Seated;
    assert segs[0].base <= a by { TopEnd(ck, segs, a); }
    forall x | x in ck && x != a && x != a + ck[a].size ensures x + ck[x].size <= a || a + s + TOP_FOOT_SIZE <= x {
      NothingAfterTop(ck, segs, a, x);
      if !(x + ck[x].size <= a) {
        var i :| 1 <= i < |segs| && Seated(segs[i], x, ck[x]);
        SeatedWithin(ck, segs, i, x);
      }
    }
  }

  lemma SeatedWithin(ck: Chunks, segs: seq<Segment>, i: nat, x: int)
    requires LayoutOk(ck, segs) && i < |segs| && x in ck && Seated(segs[i], x, ck[x])
    ensures segs[i].base <= x && x + ck[x].size <= segs[i].base + segs[i].size && ck[x].size > 0
  {
    hide Shape, Seats, Records;
    SizePositive(ck, x);
  }

  /** The top `a` of the newest segment can be given size `s`. */
  ghost predicate CanRetop(ck: Chunks, segs: seq<Segment>, a: int, s: int) {
    && a in ck && ck[a].kind == Top && s > 0 && s % 16 == 0 && ClearOfState(a, s + TOP_FOOT_SIZE)
    && |segs| > 0 && OutsideOthers(segs, 0, segs[0].base, a + s + TOP_FOOT_SIZE - segs[0].base)
  }

  ghost function Retopped(segs: seq<Segment>, a: int, s: int): seq<Segment>
    requires |segs| > 0
  {
    Rebound(segs, 0, segs[0].base, a + s + TOP_FOOT_SIZE - segs[0].base)
  }

  lemma RetopBased(ck: Chunks, segs: seq<Segment>, a: int, s: int, i: nat)
    requires LayoutOk(ck, segs) && CanRetop(ck, segs, a, s) && i < |segs|
    ensures Based(ResizeTop(ck, a, s), Retopped(segs, a, s)[i])
  {
    hide Shape, SegmentsApart, InSegs, Records, OutsideOthers, ClearOfState;
    TopEnd(ck, segs, a);
    assert Based(ck, segs[i]);
    if segs[i].base == a + s {
      NotBaseFoot(ck, segs, a, s, i);
    }
  }

  lemma NotBaseFoot(ck: Chunks, segs: seq<Segment>, a: int, s: int, i: nat)
    requires LayoutOk(ck, segs) && CanRetop(ck, segs, a, s) && i < |segs|
    ensures segs[i].base != a + s
  {
    hide Shape, Records, ClearOfState, InSegs;
    TopEnd(ck, segs, a);
    assert Based(ck, segs[i]);
  }

  lemma RetopLayout(ck: Chunks, segs: seq<Segment>, a: int, s: int)
    requires LayoutOk(ck, segs) && CanRetop(ck, segs, a, s)
    ensures LayoutOk(ResizeTop(ck, a, s), Retopped(segs, a, s))
  {
    hide Shape, Seats, Records, Away, ClearOfState, OutsideOthers, ResizeTop, Retopped;
    ResizeAway(ck, segs, a, s);
    ResizeShape(ck, a, s);
    RetopSeats(ck, segs, a, s);
    RetopRecords(ck, segs, a, s);
  }

  lemma RetopSeats(ck: Chunks, segs: seq<Segment>, a: int, s: int)
    requires LayoutOk(ck, segs) && CanRetop(ck, segs, a, s)
    ensures Seats(ResizeTop(ck, a, s), Retopped(segs, a, s))
  {
    hide Shape, SegmentsApart, InSegs, Records, ClearOfState, Based;
    var d, segs' := ResizeTop(ck, a, s), Retopped(segs, a, s);
    TopEnd(ck, segs, a);
    forall i | 0 <= i < |segs'| ensures Based(d, segs'[i]) { RetopBased(ck, segs, a, s, i); }
    forall i | 0 <= i < |segs| ensures segs[i].size > 0 { assert Based(ck, segs[i]); BasedSize(ck, segs[i]); }
    ReboundApart(segs, 0, segs[0].base, a + s + TOP_FOOT_SIZE - segs[0].base);
    forall x | x in d ensures InSegs(segs', x, d[x]) {
      if x == a || x == a + s {
        SitsIn(segs', 0, x, d[x]);
      } else {
        RetopSits(ck, segs, a, s, x);
      }
    }
  }

  lemma BasedSize(ck: Chunks, s: Segment)
    requires Based(ck, s)
    ensures s.size > 0
  {
  }

  lemma RetopSits(ck: Chunks, segs: seq<Segment>, a: int, s: int, x: int)
    requires LayoutOk(ck, segs) && CanRetop(ck, segs, a, s) && x in ck && x != a && x != a + ck[a].size
    ensures InSegs(Retopped(segs, a, s), x, ck[x])
  {
    hide LayoutOk, ClearOfState, OutsideOthers;
    var segs' := Retopped(segs, a, s);
    NothingAfterTop(ck, segs, a, x);
    if i :| 1 <= i < |segs| && Seated(segs[i], x, ck[x]) {
      SitsIn(segs', i, x, ck[x]);
    } else {
      BeforeTop(ck, segs, a, x);
      SitsIn(segs', 0, x, ck[x]);
    }
  }

  lemma BeforeTop(ck: Chunks, segs: seq<Segment>, a: int, x: int)
    requires LayoutOk(ck, segs) && a in ck && ck[a].kind == Top && x in ck && x != a && x != a + ck[a].size
    requires |segs| > 0 && !exists i :: 1 <= i < |segs| && Seated(segs[i], x, ck[x])
    ensures x + ck[x].size <= a && segs[0].base <= x && !Last(ck[x].kind)
  {
    hide Shape, SegmentsApart, Records, Based;
    NothingAfterTop(ck, segs, a, x);
    TopEnd(ck, segs, a);
    var i := SeatOf(ck, segs, x);
  }

  lemma RetopRecorded(ck: Chunks, segs: seq<Segment>, a: int, s: int, i: nat)
    requires LayoutOk(ck, segs) && CanRetop(ck, segs, a, s) && 1 <= i < |segs| && Recorded(ck, segs[i])
    ensures Recorded(ResizeTop(ck, a, s), Retopped(segs, a, s)[i])
  {
    hide Shape, Records, Based;
    TopEnd(ck, segs, a);
    var r := segs[i].rec - 16;
    SizePositive(ck, r);
    RecordApart(segs, i, r, ck[r], a, s);
  }

  lemma RecordApart(segs: seq<Segment>, i: nat, r: int, c: Chunk, a: int, s: int)
    requires 1 <= i < |segs| && Seated(segs[i], r, c) && c.size > 0 && s > 0 && segs[0].base <= a
    requires OutsideOthers(segs, 0, segs[0].base, a + s + TOP_FOOT_SIZE - segs[0].base)
    ensures r != a + s
  {
  }

  lemma RetopRecords(ck: Chunks, segs: seq<Segment>, a: int, s: int)
    requires LayoutOk(ck, segs) && CanRetop(ck, segs, a, s)
    ensures Records(ResizeTop(ck, a, s), Retopped(segs, a, s))
  {
    hide Shape, Seats, Recorded, Seated, ClearOfState, OutsideOthers, HasSegment;
    var d, segs' := ResizeTop(ck, a, s), Retopped(segs, a, s);
    TopEnd(ck, segs, a);
    forall i | 1 <= i < |segs'| ensures Recorded(d, segs'[i]) { RetopRecorded(ck, segs, a, s, i); }
    forall x | x in d && d[x].kind == Record ensures HasSegment(segs', x + 16) {
      assert HasSegment(segs, x + 16);
      ReboundHas(segs, segs', x + 16);
    }
    forall x | x in d && d[x].kind == Top ensures Seated(segs'[0], x, d[x]) {
      RetopTop(ck, segs, a, s, x);
    }
  }

  lemma ReboundHas(segs: seq<Segment>, segs': seq<Segment>, r: int)
    requires HasSegment(segs, r) && |segs'| == |segs| && forall i | 0 <= i < |segs| :: segs'[i].rec == segs[i].rec
    ensures HasSegment(segs', r)
  {
    var i :| 1 <= i < |segs| && segs[i].rec == r;
    assert segs'[i].rec == r;
  }

  /** There is only one top. */
  lemma OnlyTop(ck: Chunks, segs: seq<Segment>, a: int, b: int)
    requires LayoutOk(ck, segs) && a in ck && ck[a].kind == Top && b in ck && ck[b].kind == Top
    ensures a == b
  {
    hide Shape, Seats, Records;
    TopEnd(ck, segs, a);
    TopEnd(ck, segs, b);
    var f, g := a + ck[a].size, b + ck[b].size;
    OnePrev(ck, a, b);
  }

  lemma RetopTop(ck: Chunks, segs: seq<Segment>, a: int, s: int, x: int)
    requires LayoutOk(ck, segs) && CanRetop(ck, segs, a, s) && x in ResizeTop(ck, a, s)
    requires ResizeTop(ck, a, s)[x].kind == Top
    ensures Seated(Retopped(segs, a, s)[0], x, ResizeTop(ck, a, s)[x])
  {
    hide LayoutOk, ClearOfState, OutsideOthers;
    TopEnd(ck, segs, a);
    if x != a {
      OnlyTop(ck, segs, a, x);
    }
  }

  // ----- A new segment besides the others

  ghost function Pushed(ck: Chunks, segs: seq<Segment>, a: int, base: int, size: int): seq<Segment>
    requires a in ck && |segs| > 0
  {
    [Segment(base, size, SEG), Segment(segs[0].base, segs[0].size, RecordAt(ck, a) + 16)] + segs[1..]
  }

  /** Every old segment keeps its bounds, one place further down. */
  lemma PushedAt(ck: Chunks, segs: seq<Segment>, a: int, base: int, size: int, i: nat)
    requires a in ck && i < |segs|
    ensures var t := Pushed(ck, segs, a, base, size);
      && |t| == |segs| + 1 && t[i + 1].base == segs[i].base && t[i + 1].size == segs[i].size
      && (i > 0 ==> t[i + 1].rec == segs[i].rec)
  {
  }

  lemma RetireAway(ck: Chunks, a: int, lo: int, hi: int)
    requires Shape(ck) && a in ck && ck[a].kind == Top && Away(ck, {}, lo, hi) && lo < hi
    ensures Away(Retire(ck, a), {}, lo, hi)
  {
    hide Shape;
    TopThenFoot(ck, a);
    forall x | x in Retire(ck, a) ensures x + Retire(ck, a)[x].size <= lo || hi <= x {
      assert a + ck[a].size <= lo || hi <= a;
      assert a + ck[a].size + TOP_FOOT_SIZE <= lo || hi <= a + ck[a].size;
    }
  }

  lemma PushLayout(ck: Chunks, segs: seq<Segment>, a: int, base: int, size: int)
    requires LayoutOk(ck, segs) && a in ck && ck[a].kind == Top && Usable(base, size) && Outside(segs, base, size)
    ensures |segs| > 0 && LayoutOk(AddTop(Retire(ck, a), base, size), Pushed(ck, segs, a, base, size))
  {
    hide Shape, Seats, Records, Away, Usable, Outside, Retire, AddTop, Pushed;
    TopEnd(ck, segs, a);
    OutsideAway(ck, segs, base, size);
    RetireShape(ck, a);
    assert size > 0 by { UsableSize(base, size); }
    RetireAway(ck, a, base, base + size);
    AddTopShape(Retire(ck, a), base, size);
    PushSeats(ck, segs, a, base, size);
    PushRecords(ck, segs, a, base, size);
  }

  /** The places of the chunks that replace the top. */
  lemma RetireSits(ck: Chunks, segs: seq<Segment>, a: int, x: int) returns (i: int)
    requires LayoutOk(ck, segs) && a in ck && ck[a].kind == Top && x in Retire(ck, a)
    ensures 0 <= i < |segs| && Seated(segs[i], x, Retire(ck, a)[x])
  {
    hide Shape, SegmentsApart, Records, Based;
    TopEnd(ck, segs, a);
    if x in ck && x != a && x != a + ck[a].size {
      i := SeatOf(ck, segs, x);
      RetireSame(ck, a, x);
    } else {
      i := 0;
    }
  }

  lemma RetireSame(ck: Chunks, a: int, x: int)
    requires Shape(ck) && a in ck && ck[a].kind == Top && x in ck && x != a && x != a + ck[a].size
    ensures x in Retire(ck, a) && Retire(ck, a)[x] == ck[x]
  {
    hide Shape;
    TopThenFoot(ck, a);
    if x == a + RECORD_SIZE { NotAfterTop(ck, a, x); }
    if x == a + ck[a].size + RECORD_SIZE { NotAfterTop(ck, a, x); }
  }

  lemma NotAfterTop(ck: Chunks, a: int, x: int)
    requires Shape(ck) && a in ck && ck[a].kind == Top && x in ck && x != a && x != a + ck[a].size
    ensures x < a || x >= a + ck[a].size + TOP_FOOT_SIZE
  {
    hide Shape;
    TopThenFoot(ck, a);
    if a < x < a + ck[a].size { NotInside(ck, a, x); }
    if a + ck[a].size < x < a + ck[a].size + TOP_FOOT_SIZE { NotInside(ck, a + ck[a].size, x); }
  }

  lemma PushBased(ck: Chunks, segs: seq<Segment>, a: int, base: int, size: int, i: nat)
    requires LayoutOk(ck, segs) && a in ck && ck[a].kind == Top && Usable(base, size) && Outside(segs, base, size) &&
      i < |segs|
    ensures Based(AddTop(Retire(ck, a), base, size), segs[i])
  {
    hide Shape, SegmentsApart, Records, InSegs, Retire, ClearOfState;
    TopEnd(ck, segs, a);
    assert Based(ck, segs[i]);
    var b := segs[i].base;
    assert b != base && b != base + size - TOP_FOOT_SIZE;
    if b == a {
      RetireTop(ck, a);
    } else {
      assert b != a + ck[a].size;
      RetireSame(ck, a, b);
    }
  }

  lemma RetireTop(ck: Chunks, a: int)
    requires Shape(ck) && a in ck && ck[a].kind == Top
    ensures a in Retire(ck, a) && Retire(ck, a)[a].prev == ck[a].prev && !Last(Retire(ck, a)[a].kind)
  {
    hide Shape;
    TopThenFoot(ck, a);
  }

  lemma PushSeats(ck: Chunks, segs: seq<Segment>, a: int, base: int, size: int)
    requires LayoutOk(ck, segs) && a in ck && ck[a].kind == Top && Usable(base, size) && Outside(segs, base, size)
    ensures |segs| > 0 && Seats(AddTop(Retire(ck, a), base, size), Pushed(ck, segs, a, base, size))
  {
    hide LayoutOk, Shape, SegmentsApart, InSegs, Retire, Usable, Outside, Based, Pushed, Seated, AddTop;
    TopEnd(ck, segs, a);
    var d, t := AddTop(Retire(ck, a), base, size), Pushed(ck, segs, a, base, size);
    PushedAt(ck, segs, a, base, size, 0);
    forall i | 0 <= i < |t| ensures Based(d, t[i]) {
      if i == 0 {
        PushedFirst(ck, segs, a, base, size);
        NewBased(ck, a, base, size);
      } else {
        PushedAt(ck, segs, a, base, size, i - 1);
        PushBased(ck, segs, a, base, size, i - 1);
        BasedAlike(d, segs[i - 1], t[i]);
      }
    }
    assert SegmentsApart(t) by { PushApart(ck, segs, a, base, size); }
    forall x | x in d ensures InSegs(t, x, d[x]) {
      PushSits(ck, segs, a, base, size, x);
    }
    SeatsIs(d, t);
  }

  lemma SeatsIs(ck: Chunks, segs: seq<Segment>)
    requires (forall i | 0 <= i < |segs| :: Based(ck, segs[i])) && SegmentsApart(segs) && forall a | a in ck :: InSegs(segs, a, ck[a])
    ensures Seats(ck, segs)
  {
  }

  lemma BasedAlike(ck: Chunks, s: Segment, t: Segment)
    requires Based(ck, s) && t.base == s.base && t.size == s.size
    ensures Based(ck, t)
  {
  }

  lemma PushedFirst(ck: Chunks, segs: seq<Segment>, a: int, base: int, size: int)
    requires a in ck && |segs| > 0
    ensures |Pushed(ck, segs, a, base, size)| > 0 && Pushed(ck, segs, a, base, size)[0] == Segment(base, size, SEG)
  {
  }

  lemma NewBased(ck: Chunks, a: int, base: int, size: int)
    requires a in ck && Usable(base, size)
    ensures Based(AddTop(Retire(ck, a), base, size), Segment(base, size, SEG))
  {
    hide Retire, ClearOfState;
  }

  lemma PushApart(ck: Chunks, segs: seq<Segment>, a: int, base: int, size: int)
    requires LayoutOk(ck, segs) && a in ck && |segs| > 0 && Outside(segs, base, size)
    ensures SegmentsApart(Pushed(ck, segs, a, base, size))
  {
    hide Shape, Records, Based, InSegs, RecordAt;
    var t := Pushed(ck, segs, a, base, size);
    forall i, j | 0 <= i < j < |t| ensures t[i].base + t[i].size <= t[j].base || t[j].base + t[j].size <= t[i].base {
      PushedAt(ck, segs, a, base, size, j - 1);
      if i > 0 {
        PushedAt(ck, segs, a, base, size, i - 1);
      }
    }
  }

  lemma PushSits(ck: Chunks, segs: seq<Segment>, a: int, base: int, size: int, x: int)
    requires LayoutOk(ck, segs) && a in ck && ck[a].kind == Top && |segs| > 0 && Usable(base, size)
    requires x in AddTop(Retire(ck, a), base, size)
    ensures InSegs(Pushed(ck, segs, a, base, size), x, AddTop(Retire(ck, a), base, size)[x])
  {
    hide LayoutOk, Retire, Pushed, Usable;
    var d, t := AddTop(Retire(ck, a), base, size), Pushed(ck, segs, a, base, size);
    PushedFirst(ck, segs, a, base, size);
    TopSeated(base, size, SEG);
    if x == base || x == base + size - TOP_FOOT_SIZE {
      SitsIn(t, 0, x, d[x]);
    } else {
      var i := RetireSits(ck, segs, a, x);
      PushedAt(ck, segs, a, base, size, i);
      SitsIn(t, i + 1, x, d[x]);
    }
  }

  lemma RetiredRecord(ck: Chunks, segs: seq<Segment>, a: int)
    requires LayoutOk(ck, segs) && a in ck && ck[a].kind == Top
    ensures |segs| > 0
    ensures var r := RecordAt(ck, a);
      r in Retire(ck, a) && Retire(ck, a)[r].kind == Record && Retire(ck, a)[r].size == RECORD_SIZE &&
        Seated(segs[0], r, Retire(ck, a)[r])
  {
    hide Shape, Seats, Records;
    TopEnd(ck, segs, a);
  }

  lemma AddTopSame(ck: Chunks, segs: seq<Segment>, a: int, base: int, size: int, r: int)
    requires LayoutOk(ck, segs) && a in ck && ck[a].kind == Top && Usable(base, size) && Outside(segs, base, size)
    requires r in Retire(ck, a)
    ensures r in AddTop(Retire(ck, a), base, size) && AddTop(Retire(ck, a), base, size)[r] == Retire(ck, a)[r]
  {
    hide Shape, Seats, Records, Retire, Usable;
    OutsideAway(ck, segs, base, size);
    assert size > TOP_FOOT_SIZE by { UsableSize(base, size); }
    RetireShape(ck, a);
    RetireAway(ck, a, base, base + size);
    SizePositive(Retire(ck, a), r);
  }

  lemma UsableSize(base: int, size: int)
    requires Usable(base, size)
    ensures size > TOP_FOOT_SIZE
  {
  }

  lemma PushRecorded(ck: Chunks, segs: seq<Segment>, a: int, base: int, size: int, i: nat)
    requires LayoutOk(ck, segs) && a in ck && ck[a].kind == Top && Usable(base, size) && Outside(segs, base, size)
    requires |segs| > 0 && 1 <= i < |Pushed(ck, segs, a, base, size)|
    ensures Recorded(AddTop(Retire(ck, a), base, size), Pushed(ck, segs, a, base, size)[i])
  {
    hide Shape, Seats, Retire, Usable, Outside, AddTop, HasSegment, Seated;
    var t := Pushed(ck, segs, a, base, size);
    PushedAt(ck, segs, a, base, size, i - 1);
    RetiredRecord(ck, segs, a);
    if i == 1 {
      AddTopSame(ck, segs, a, base, size, RecordAt(ck, a));
      SeatedAlike(segs[0], t[1], RecordAt(ck, a), Retire(ck, a)[RecordAt(ck, a)]);
    } else {
      assert Recorded(ck, segs[i - 1]);
      var r := segs[i - 1].rec - 16;
      TopThenFoot(ck, a);
      RetireSame(ck, a, r);
      AddTopSame(ck, segs, a, base, size, r);
      SeatedAlike(segs[i - 1], t[i], r, ck[r]);
    }
  }

  lemma SeatedAlike(s: Segment, t: Segment, x: int, c: Chunk)
    requires Seated(s, x, c) && t.base == s.base && t.size == s.size
    ensures Seated(t, x, c)
  {
  }

  lemma PushHas(ck: Chunks, segs: seq<Segment>, a: int, base: int, size: int, x: int)
    requires LayoutOk(ck, segs) && a in ck && ck[a].kind == Top && |segs| > 0
    requires x in AddTop(Retire(ck, a), base, size) && AddTop(Retire(ck, a), base, size)[x].kind == Record
    ensures HasSegment(Pushed(ck, segs, a, base, size), x + 16)
  {
    hide Shape, Seats;
    var t := Pushed(ck, segs, a, base, size);
    TopThenFoot(ck, a);
    PushedAt(ck, segs, a, base, size, 0);
    if x == RecordAt(ck, a) {
      assert t[1].rec == x + 16;
    } else {
      assert x in ck && ck[x].kind == Record;
      assert HasSegment(segs, x + 16);
      var i :| 1 <= i < |segs| && segs[i].rec == x + 16;
      PushedAt(ck, segs, a, base, size, i);
      assert t[i + 1].rec == x + 16;
    }
  }

  lemma PushTop(ck: Chunks, segs: seq<Segment>, a: int, base: int, size: int, x: int)
    requires LayoutOk(ck, segs) && a in ck && ck[a].kind == Top && |segs| > 0 && Usable(base, size)
    requires x in AddTop(Retire(ck, a), base, size) && AddTop(Retire(ck, a), base, size)[x].kind == Top
    ensures x == base
  {
    hide LayoutOk, ClearOfState;
    TopEnd(ck, segs, a);
    if x != base {
      assert x in ck && ck[x].kind == Top && x != a;
      OnlyTop(ck, segs, a, x);
    }
  }

  lemma PushRecords(ck: Chunks, segs: seq<Segment>, a: int, base: int, size: int)
    requires LayoutOk(ck, segs) && a in ck && ck[a].kind == Top && Usable(base, size) && Outside(segs, base, size)
    ensures |segs| > 0 && Records(AddTop(Retire(ck, a), base, size), Pushed(ck, segs, a, base, size))
  {
    hide LayoutOk, Retire, Usable, Outside, HasSegment, Recorded, Pushed, Seated;
    TopEnd(ck, segs, a);
    var d, t := AddTop(Retire(ck, a), base, size), Pushed(ck, segs, a, base, size);
    PushedFirst(ck, segs, a, base, size);
    TopSeated(base, size, SEG);
    forall i | 1 <= i < |t| ensures Recorded(d, t[i]) { PushRecorded(ck, segs, a, base, size, i); }
    forall x | x in d && d[x].kind == Record ensures HasSegment(t, x + 16) { PushHas(ck, segs, a, base, size, x); }
    forall x | x in d && d[x].kind == Top ensures Seated(t[0], x, d[x]) { PushTop(ck, segs, a, base, size, x); }
  }

  // ----- A segment given back

  ghost function WithoutSegment(segs: seq<Segment>, k: nat): seq<Segment>
    requires k < |segs|
  {
    segs[..k] + segs[k + 1..]
  }

  /** Where segment `i` of the others was before segment `k` went. */
  function Skip(k: nat, i: nat): nat {
    if i < k then i else i + 1
  }

  lemma RemovedAt(segs: seq<Segment>, k: nat, i: nat)
    requires k < |segs| && i < |segs| - 1
    ensures |WithoutSegment(segs, k)| == |segs| - 1 && WithoutSegment(segs, k)[i] == segs[Skip(k, i)]
  {
  }

  /** The chunks of segment `k` are those within its bounds. */
  lemma SegmentChunk(ck: Chunks, segs: seq<Segment>, k: nat, i: nat, x: int)
    requires LayoutOk(ck, segs) && k < |segs| && i < |segs| && x in ck && Seated(segs[i], x, ck[x])
    ensures segs[k].base <= x < segs[k].base + segs[k].size <==> i == k
  {
    hide Shape, Records, Based, InSegs;
    SizePositive(ck, x);
    if segs[k].base <= x < segs[k].base + segs[k].size {
      OneSegment(segs, x, i, k);
    }
  }

  lemma DropClosedAt(ck: Chunks, segs: seq<Segment>, k: nat, x: int)
    requires LayoutOk(ck, segs) && k < |segs| && x in ck && !Last(ck[x].kind)
    ensures x + ck[x].size in ck
    ensures segs[k].base <= x < segs[k].base + segs[k].size <==> segs[k].base <= x + ck[x].size < segs[k].base + segs[k].size
  {
    hide Shape, Records, Based, InSegs, Seated, SegmentsApart;
    NextIn(ck, x);
    var i := SeatOf(ck, segs, x);
    var j := SeatOf(ck, segs, x + ck[x].size);
    SameSegment(ck, segs, x, i, j);
    SegmentChunk(ck, segs, k, i, x);
    SegmentChunk(ck, segs, k, j, x + ck[x].size);
  }

  lemma DropClosed(ck: Chunks, segs: seq<Segment>, k: nat)
    requires LayoutOk(ck, segs) && k < |segs|
    ensures Closed(ck, segs[k].base, segs[k].base + segs[k].size)
  {
    hide Shape, Seats, Records;
    var lo, hi := segs[k].base, segs[k].base + segs[k].size;
    forall x | x in ck && !(lo <= x < hi) && !Last(ck[x].kind) ensures !(lo <= x + ck[x].size < hi) {
      DropClosedAt(ck, segs, k, x);
    }
    forall x | x in ck && !(lo <= x < hi) && ck[x].prev > 0 ensures !(lo <= x - ck[x].prev < hi) {
      ChunkIn(ck, x);
      DropClosedAt(ck, segs, k, x - ck[x].prev);
    }
  }

  lemma DropBased(ck: Chunks, segs: seq<Segment>, k: nat, i: nat)
    requires LayoutOk(ck, segs) && k < |segs| && i < |segs| && i != k
    ensures Based(Drop(ck, segs[k].base, segs[k].base + segs[k].size), segs[i])
  {
    hide Shape, Records, InSegs, SegmentsApart;
    assert Based(ck, segs[i]);
    if segs[k].base <= segs[i].base < segs[k].base + segs[k].size {
      OneSegment(segs, segs[i].base, i, k);
    }
  }

  lemma DropSits(ck: Chunks, segs: seq<Segment>, k: nat, x: int)
    requires LayoutOk(ck, segs) && k < |segs| && x in Drop(ck, segs[k].base, segs[k].base + segs[k].size)
    ensures InSegs(WithoutSegment(segs, k), x, ck[x])
  {
    hide Shape, Records, Based, InSegs, Seated, WithoutSegment, SegmentsApart;
    var i := SeatOf(ck, segs, x);
    SegmentChunk(ck, segs, k, i, x);
    var j := if i < k then i else i - 1;
    RemovedAt(segs, k, j);
    SitsIn(WithoutSegment(segs, k), j, x, ck[x]);
  }

  lemma RemovedApart(segs: seq<Segment>, k: nat)
    requires SegmentsApart(segs) && k < |segs|
    ensures SegmentsApart(WithoutSegment(segs, k))
  {
  }

  lemma DropSeats(ck: Chunks, segs: seq<Segment>, k: nat)
    requires LayoutOk(ck, segs) && k < |segs|
    ensures Seats(Drop(ck, segs[k].base, segs[k].base + segs[k].size), WithoutSegment(segs, k))
  {
    hide LayoutOk, Based, InSegs, SegmentsApart, WithoutSegment;
    var d, t := Drop(ck, segs[k].base, segs[k].base + segs[k].size), WithoutSegment(segs, k);
    assert |t| == |segs| - 1 by { if |segs| > 1 { RemovedAt(segs, k, 0); } else { RemovedLast(segs, k); } }
    forall i | 0 <= i < |t| ensures Based(d, t[i]) {
      RemovedAt(segs, k, i);
      DropBased(ck, segs, k, Skip(k, i));
    }
    assert SegmentsApart(segs) by { LayoutApart(ck, segs); }
    RemovedApart(segs, k);
    forall x | x in d ensures InSegs(t, x, d[x]) { DropSits(ck, segs, k, x); }
    SeatsIs(d, t);
  }

  lemma RemovedLast(segs: seq<Segment>, k: nat)
    requires k < |segs|
    ensures |WithoutSegment(segs, k)| == |segs| - 1
  {
  }

  lemma LayoutApart(ck: Chunks, segs: seq<Segment>)
    requires LayoutOk(ck, segs)
    ensures SegmentsApart(segs)
  {
    hide Shape, Records, SegmentsApart, Based, InSegs;
  }

  lemma DropRecorded(ck: Chunks, segs: seq<Segment>, k: nat, i: nat)
    requires LayoutOk(ck, segs) && 1 <= k < |segs| && 1 <= i < |segs| && i != k
    ensures Recorded(Drop(ck, segs[k].base, segs[k].base + segs[k].size), segs[i])
  {
    hide Shape, Seats, HasSegment, Seated;
    assert Recorded(ck, segs[i]);
    SegmentChunk(ck, segs, k, i, segs[i].rec - 16);
  }

  lemma DropHas(ck: Chunks, segs: seq<Segment>, k: nat, x: int)
    requires LayoutOk(ck, segs) && 1 <= k < |segs| && x in Drop(ck, segs[k].base, segs[k].base + segs[k].size)
    requires ck[x].kind == Record
    ensures HasSegment(WithoutSegment(segs, k), x + 16)
  {
    hide Shape, Seats, Seated, WithoutSegment;
    assert HasSegment(segs, x + 16);
    var i :| 1 <= i < |segs| && segs[i].rec == x + 16;
    assert Recorded(ck, segs[i]);
    SegmentChunk(ck, segs, k, i, x);
    var j := if i < k then i else i - 1;
    RemovedAt(segs, k, j);
    assert WithoutSegment(segs, k)[j].rec == x + 16;
  }

  lemma DropRecords(ck: Chunks, segs: seq<Segment>, k: nat)
    requires LayoutOk(ck, segs) && 1 <= k < |segs|
    ensures Records(Drop(ck, segs[k].base, segs[k].base + segs[k].size), WithoutSegment(segs, k))
  {
    hide Shape, Seats, Seated, WithoutSegment, Recorded, HasSegment;
    var d, t := Drop(ck, segs[k].base, segs[k].base + segs[k].size), WithoutSegment(segs, k);
    RemovedAt(segs, k, 0);
    forall i | 1 <= i < |t| ensures Recorded(d, t[i]) {
      RemovedAt(segs, k, i);
      DropRecorded(ck, segs, k, Skip(k, i));
    }
    forall x | x in d && d[x].kind == Record ensures HasSegment(t, x + 16) { DropHas(ck, segs, k, x); }
  }

  lemma DropLayout(ck: Chunks, segs: seq<Segment>, k: nat)
    requires LayoutOk(ck, segs) && 1 <= k < |segs|
    ensures LayoutOk(Drop(ck, segs[k].base, segs[k].base + segs[k].size), WithoutSegment(segs, k))
  {
    hide Shape, Seats, Records, Drop, WithoutSegment;
    DropClosed(ck, segs, k);
    DropShape(ck, segs[k].base, segs[k].base + segs[k].size);
    DropSeats(ck, segs, k);
    DropRecords(ck, segs, k);
  }
}
