/** The segments of system memory that the heap holds, and how its chunks sit in them. */
module Segments {
  import opened Memory
  import opened Layout

  /** A region of system memory and the address of its malloc_segment record. */
  datatype Segment = Segment(base: int, size: int, rec: int)

  /** The record embedded in the malloc_state, for the newest segment. */
  const SEG: int := STATE + 888

  // Offsets in malloc_segment
  const SEG_SIZE: int := 8
  const SEG_NEXT: int := 16
  const SEG_FLAGS: int := 24

  const USE_MMAP_BIT: int := 1

  /** pad_request(sizeof(struct malloc_segment)) */
  const RECORD_SIZE: int := 48

  ghost predicate Seated(s: Segment, a: int, c: Chunk) {
    s.base <= a && if Last(c.kind) then a + c.size == s.base + s.size else a + c.size < s.base + s.size
  }

  ghost predicate InSegs(segs: seq<Segment>, a: int, c: Chunk) {
    exists i :: 0 <= i < |segs| && Seated(segs[i], a, c)
  }

  ghost predicate Based(ck: Chunks, s: Segment) {
    s.size > 0 && s.base in ck && ck[s.base].prev == 0 && !Last(ck[s.base].kind)
  }

  ghost predicate SegmentsApart(segs: seq<Segment>) {
    forall i, j | 0 <= i < j < |segs| ::
      segs[i].base + segs[i].size <= segs[j].base || segs[j].base + segs[j].size <= segs[i].base
  }

  /** The record of an older segment is the payload of a chunk at its end. */
  ghost predicate Recorded(ck: Chunks, s: Segment) {
    s.rec - 16 in ck && ck[s.rec - 16].kind == Record && ck[s.rec - 16].size == RECORD_SIZE &&
      Seated(s, s.rec - 16, ck[s.rec - 16])
  }

  ghost predicate HasSegment(segs: seq<Segment>, rec: int) {
    exists i :: 1 <= i < |segs| && segs[i].rec == rec
  }

  ghost predicate Seats(ck: Chunks, segs: seq<Segment>) {
    && (forall i | 0 <= i < |segs| :: Based(ck, segs[i]))
    && SegmentsApart(segs)
    && (forall a | a in ck :: InSegs(segs, a, ck[a]))
  }

  ghost predicate Records(ck: Chunks, segs: seq<Segment>) {
    && (|segs| > 0 ==> segs[0].rec == SEG)
    && (forall i | 1 <= i < |segs| :: Recorded(ck, segs[i]))
    && (forall a | a in ck && ck[a].kind == Record :: HasSegment(segs, a + 16))
    && (forall a | a in ck && ck[a].kind == Top :: |segs| > 0 && Seated(segs[0], a, ck[a]))
  }

  // ----- Preservation by the layout changes

  /** A byte lies in one segment only. */
  lemma OneSegment(segs: seq<Segment>, x: int, i: int, j: int)
    requires SegmentsApart(segs) && 0 <= i < |segs| && 0 <= j < |segs|
    requires segs[i].base <= x < segs[i].base + segs[i].size && segs[j].base <= x < segs[j].base + segs[j].size
    ensures i == j
  {
  }

  /** The chunk after a chunk is in the same segment. */
  lemma SameSegment(ck: Chunks, segs: seq<Segment>, a: int, i: int, j: int)
    requires Shape(ck) && SegmentsApart(segs) && a in ck && !Last(ck[a].kind) && a + ck[a].size in ck
    requires 0 <= i < |segs| && 0 <= j < |segs|
    requires Seated(segs[i], a, ck[a]) && Seated(segs[j], a + ck[a].size, ck[a + ck[a].size])
    ensures i == j
  {
    hide Shape, SegmentsApart;
    SizePositive(ck, a);
    SizePositive(ck, a + ck[a].size);
    OneSegment(segs, a + ck[a].size, i, j);
  }

  /** The chunk after a chunk is not the first of a segment. */
  lemma NextNotBase(ck: Chunks, segs: seq<Segment>, a: int, i: int)
    requires Shape(ck) && Seats(ck, segs) && a in ck && !Last(ck[a].kind) && 0 <= i < |segs|
    ensures a + ck[a].size != segs[i].base
  {
    hide Shape, SegmentsApart;
    SizePositive(ck, a);
    assert InSegs(segs, a, ck[a]);
    var j :| 0 <= j < |segs| && Seated(segs[j], a, ck[a]);
    if a + ck[a].size == segs[i].base {
      assert Based(ck, segs[i]);
      OneSegment(segs, a + ck[a].size, i, j);
    }
  }

  lemma SeatOf(ck: Chunks, segs: seq<Segment>, a: int) returns (i: int)
    requires Seats(ck, segs) && a in ck
    ensures 0 <= i < |segs| && Seated(segs[i], a, ck[a])
  {
    assert InSegs(segs, a, ck[a]);
    i :| 0 <= i < |segs| && Seated(segs[i], a, ck[a]);
  }

  lemma SitsIn(segs: seq<Segment>, i: int, a: int, c: Chunk)
    requires 0 <= i < |segs| && Seated(segs[i], a, c)
    ensures InSegs(segs, a, c)
  {
  }

  lemma RekindSeats(ck: Chunks, segs: seq<Segment>, a: int, k: Kind)
    requires Shape(ck) && CanRekind(ck, a, k) && Seats(ck, segs) && a + ck[a].size in ck
    ensures Seats(Rekind(ck, a, k), segs)
  {
    hide Shape, SegmentsApart, InSegs, Based;
    var d := Rekind(ck, a, k);
    NextIn(ck, a);
    forall i | 0 <= i < |segs| ensures Based(d, segs[i]) {
      NextNotBase(ck, segs, a, i);
      RekindBased(ck, a, k, segs[i]);
    }
    forall x | x in d ensures InSegs(segs, x, d[x]) {
      var i := SeatOf(ck, segs, x);
      SitsIn(segs, i, x, d[x]);
    }
  }

  lemma RekindBased(ck: Chunks, a: int, k: Kind, s: Segment)
    requires CanRekind(ck, a, k) && a + ck[a].size in ck && Based(ck, s) && s.base != a + ck[a].size
    ensures Based(Rekind(ck, a, k), s)
  {
  }

  lemma RekindRecords(ck: Chunks, segs: seq<Segment>, a: int, k: Kind)
    requires Shape(ck) && CanRekind(ck, a, k) && Records(ck, segs) && a + ck[a].size in ck
    ensures Records(Rekind(ck, a, k), segs)
  {
    hide Shape, HasSegment;
    var d := Rekind(ck, a, k);
    NextIn(ck, a);
    forall i | 1 <= i < |segs| ensures Recorded(d, segs[i]) {
      assert Recorded(ck, segs[i]);
    }
  }

  lemma CutSeats(ck: Chunks, segs: seq<Segment>, a: int, s: int)
    requires Shape(ck) && CanCutAny(ck, a, s) && Seats(ck, segs) && a + s !in ck
    ensures Seats(CutAny(ck, a, s), segs)
  {
    hide Shape, SegmentsApart, InSegs;
    var d := CutAny(ck, a, s);
    forall i | 0 <= i < |segs| ensures Based(d, segs[i]) {
      assert Based(ck, segs[i]);
    }
    var j := SeatOf(ck, segs, a);
    forall x | x in d ensures InSegs(segs, x, d[x]) {
      if x == a || x == a + s {
        SitsIn(segs, j, x, d[x]);
      } else {
        assert InSegs(segs, x, ck[x]);
      }
    }
  }

  lemma CutRecords(ck: Chunks, segs: seq<Segment>, a: int, s: int)
    requires CanCutAny(ck, a, s) && Records(ck, segs) && a + s !in ck
    ensures Records(CutAny(ck, a, s), segs)
  {
    hide HasSegment;
    var d := CutAny(ck, a, s);
    forall i | 1 <= i < |segs| ensures Recorded(d, segs[i]) {
      assert Recorded(ck, segs[i]);
    }
  }

  lemma JoinSeats(ck: Chunks, segs: seq<Segment>, a: int)
    requires Shape(ck) && CanJoin(ck, a) && Seats(ck, segs)
    ensures Seats(Join(ck, a), segs)
  {
    hide Shape, SegmentsApart, InSegs, Based;
    var n, d := a + ck[a].size, Join(ck, a);
    forall i | 0 <= i < |segs| ensures Based(d, segs[i]) {
      NextNotBase(ck, segs, a, i);
      JoinBased(ck, a, segs[i]);
    }
    var j := SeatOf(ck, segs, a);
    var k := SeatOf(ck, segs, n);
    SameSegment(ck, segs, a, j, k);
    forall x | x in d ensures InSegs(segs, x, d[x]) {
      if x == a {
        SitsIn(segs, j, a, d[a]);
      } else {
        assert InSegs(segs, x, ck[x]);
      }
    }
  }

  lemma JoinBased(ck: Chunks, a: int, s: Segment)
    requires CanJoin(ck, a) && Based(ck, s) && s.base != a + ck[a].size
    ensures Based(Join(ck, a), s)
  {
  }

  lemma JoinRecorded(ck: Chunks, a: int, s: Segment)
    requires CanJoin(ck, a) && Recorded(ck, s)
    ensures Recorded(Join(ck, a), s)
  {
  }

  lemma JoinRecords(ck: Chunks, segs: seq<Segment>, a: int)
    requires Shape(ck) && CanJoin(ck, a) && Seats(ck, segs) && Records(ck, segs)
    ensures Records(Join(ck, a), segs)
  {
    hide Shape, HasSegment, Recorded, Seats, SegmentsApart, Seated;
    var n, d := a + ck[a].size, Join(ck, a);
    forall i | 1 <= i < |segs| ensures Recorded(d, segs[i]) {
      JoinRecorded(ck, a, segs[i]);
    }
    if ck[n].kind == Top {
      JoinTopSeated(ck, segs, a);
    }
  }

  lemma JoinTopSeated(ck: Chunks, segs: seq<Segment>, a: int)
    requires |segs| > 0 && CanJoin(ck, a)
    requires var n := a + ck[a].size; ck[n].kind == Top && Seated(segs[0], n, ck[n])
    requires Shape(ck) && Seats(ck, segs)
    ensures Seated(segs[0], a, Chunk(ck[a].size + ck[a + ck[a].size].size, Top, ck[a].prev))
  {
    hide Shape, SegmentsApart, InSegs;
    var j := SeatOf(ck, segs, a);
    SameSegment(ck, segs, a, j, 0);
  }

  // ----- Layouts in their segments

  ghost predicate LayoutOk(ck: Chunks, segs: seq<Segment>) {
    Shape(ck) && Seats(ck, segs) && Records(ck, segs)
  }

  lemma RekindOk(ck: Chunks, segs: seq<Segment>, a: int, k: Kind)
    requires LayoutOk(ck, segs) && CanRekind(ck, a, k)
    ensures a + ck[a].size in ck && LayoutOk(Rekind(ck, a, k), segs)
  {
    hide Shape, Seats, Records, Rekind;
    RekindShape(ck, a, k);
    RekindSeats(ck, segs, a, k);
    RekindRecords(ck, segs, a, k);
  }

  lemma CutOk(ck: Chunks, segs: seq<Segment>, a: int, s: int)
    requires LayoutOk(ck, segs) && CanCut(ck, a, s)
    ensures a + s !in ck && LayoutOk(Cut(ck, a, s), segs)
  {
    hide Shape, Seats, Records;
    CutShape(ck, a, s);
    CutSeats(ck, segs, a, s);
    CutRecords(ck, segs, a, s);
    assert Cut(ck, a, s) == CutAny(ck, a, s);
  }

  lemma CutTopOk(ck: Chunks, segs: seq<Segment>, a: int, s: int)
    requires LayoutOk(ck, segs) && CanCutTop(ck, a, s)
    ensures a + s !in ck && LayoutOk(CutTop(ck, a, s), segs)
  {
    hide Shape, Seats, Records;
    CutTopShape(ck, a, s);
    CutSeats(ck, segs, a, s);
    CutRecords(ck, segs, a, s);
    assert CutTop(ck, a, s) == CutAny(ck, a, s);
  }

  lemma JoinOk(ck: Chunks, segs: seq<Segment>, a: int)
    requires LayoutOk(ck, segs) && CanJoin(ck, a)
    ensures LayoutOk(Join(ck, a), segs)
  {
    hide Shape, Seats, Records, Join, CanJoin;
    JoinShape(ck, a);
    JoinSeats(ck, segs, a);
    JoinRecords(ck, segs, a);
  }
}
