/** What malloc, free and realloc do to a layout: combinations of the basic changes. */
module Moves {
  import opened Layout
  import opened Segments

  /** The free chunk `p` becomes live as a whole. */
  ghost function Take(ck: Chunks, p: int): Chunks
    requires p in ck && p + ck[p].size in ck
  {
    Rekind(ck, p, Live)
  }

  /** The first `s` bytes of the free chunk `p` become live, the rest stays free. */
  ghost function Split(ck: Chunks, p: int, s: int): Chunks
    requires p in ck && p + ck[p].size in ck
  {
    var e, rest := p + ck[p].size, ck[p].size - s;
    ck[p := Chunk(s, Live, ck[p].prev)][p + s := Chunk(rest, Free, 0)][e := ck[e].(prev := rest)]
  }

  /** Where the free run that the live chunk `p` would belong to begins. */
  ghost function RunBase(ck: Chunks, p: int): int
    requires p in ck
  {
    p - ck[p].prev
  }

  /** The live chunk `p` with the free chunk before it, if there is one. */
  ghost function JoinBack(ck: Chunks, p: int): Chunks
    requires p in ck && RunBase(ck, p) in ck
  {
    var q := RunBase(ck, p);
    if ck[p].prev == 0 then ck else (ck - {p})[q := Chunk(ck[p].prev + ck[p].size, Live, ck[q].prev)]
  }

  /** The live chunk `q` with the free chunk, or the top, after it, if there is one. */
  ghost function JoinNext(ck: Chunks, q: int): Chunks
    requires q in ck && q + ck[q].size in ck
  {
    var n := q + ck[q].size;
    var e := n + ck[n].size;
    if ck[n].kind == Top then Join(ck, q)
    else if ck[n].kind == Free && e in ck then
      (ck - {n})[q := Chunk(ck[q].size + ck[n].size, Live, ck[q].prev)][e := ck[e].(prev := 0)]
    else ck
  }

  /** The live chunk `p` becomes free: it merges with its free neighbours, or with the top. */
  ghost function Freed(ck: Chunks, p: int): Chunks
    requires p in ck && RunBase(ck, p) in ck
  {
    var q, c := RunBase(ck, p), JoinBack(ck, p);
    if q in c && q + c[q].size in c then
      var d := JoinNext(c, q);
      if q in d && d[q].kind == Live && q + d[q].size in d then Rekind(d, q, Free) else d
    else c
  }

  /** The chunks that belong to callers, with their sizes. */
  ghost function LiveOf(ck: Chunks): map<int, int> {
    map a | a in ck && ck[a].kind == Live :: ck[a].size
  }

  /** The free chunks: those in a bin, and the designated victim. */
  ghost function FreeOf(ck: Chunks): map<int, int> {
    map a | a in ck && ck[a].kind == Free :: ck[a].size
  }

  // ----- Well-formedness

  lemma TakeOk(ck: Chunks, segs: seq<Segment>, p: int)
    requires LayoutOk(ck, segs) && p in ck && ck[p].kind == Free
    ensures p + ck[p].size in ck && LayoutOk(Take(ck, p), segs)
  {
    hide LayoutOk, Rekind;
    RekindOk(ck, segs, p, Live);
  }

  ghost predicate CanSplit(ck: Chunks, p: int, s: int) {
    p in ck && ck[p].kind == Free && s % 16 == 0 && s >= MIN_CHUNK_SIZE && ck[p].size - s >= MIN_CHUNK_SIZE
  }

  lemma SplitOk(ck: Chunks, segs: seq<Segment>, p: int, s: int)
    requires LayoutOk(ck, segs) && CanSplit(ck, p, s)
    ensures p + ck[p].size in ck && p + s !in ck && LayoutOk(Split(ck, p, s), segs)
  {
    hide LayoutOk, Shape;
    var e := p + ck[p].size;
    RekindOk(ck, segs, p, Live);
    var c1 := Rekind(ck, p, Live);
    CutOk(c1, segs, p, s);
    var c2 := Cut(c1, p, s);
    RekindOk(c2, segs, p + s, Free);
    assert Rekind(c2, p + s, Free) == Split(ck, p, s);
  }

  ghost predicate Back(ck: Chunks, p: int) {
    && p in ck && RunBase(ck, p) in ck && ck[p].prev >= 0
    && var q := RunBase(ck, p); ck[p].prev > 0 ==> q != p && ck[q].kind == Free && ck[q].size == ck[p].prev
  }

  lemma BackIn(ck: Chunks, p: int)
    requires Shape(ck) && p in ck
    ensures Back(ck, p)
  {
    hide Shape;
    ChunkIn(ck, p);
  }

  lemma JoinBackOk(ck: Chunks, segs: seq<Segment>, p: int)
    requires LayoutOk(ck, segs) && p in ck && ck[p].kind == Live
    ensures var q := RunBase(ck, p);
      && q in ck
      && LayoutOk(JoinBack(ck, p), segs) && q in JoinBack(ck, p)
      && JoinBack(ck, p)[q] == Chunk(ck[p].prev + ck[p].size, Live, ck[q].prev)
  {
    hide LayoutOk, Shape;
    OkShape(ck, segs);
    BackIn(ck, p);
    var q := RunBase(ck, p);
    if ck[p].prev > 0 {
      RekindOk(ck, segs, q, Live);
      var c1 := Rekind(ck, q, Live);
      JoinOk(c1, segs, q);
      assert Join(c1, q) == JoinBack(ck, p);
    }
  }

  lemma OkShape(ck: Chunks, segs: seq<Segment>)
    requires LayoutOk(ck, segs)
    ensures Shape(ck)
  {
  }

  ghost predicate Next(ck: Chunks, q: int) {
    && q in ck && q + ck[q].size in ck
    && var n, d := q + ck[q].size, JoinNext(ck, q);
      && q in d && d[q].prev == ck[q].prev
      && (ck[n].kind == Top ==> d[q] == Chunk(ck[q].size + ck[n].size, Top, ck[q].prev))
      && (ck[n].kind == Free ==> d[q] == Chunk(ck[q].size + ck[n].size, Live, ck[q].prev))
      && (ck[n].kind != Free && ck[n].kind != Top ==> d == ck)
  }

  lemma JoinNextOk(ck: Chunks, segs: seq<Segment>, q: int)
    requires LayoutOk(ck, segs) && q in ck && ck[q].kind == Live
    ensures Next(ck, q) && LayoutOk(JoinNext(ck, q), segs)
  {
    hide LayoutOk, Shape;
    OkShape(ck, segs);
    NextIn(ck, q);
    SizePositive(ck, q);
    var n := q + ck[q].size;
    if ck[n].kind == Top {
      JoinOk(ck, segs, q);
    } else if ck[n].kind == Free {
      NextIn(ck, n);
      SizePositive(ck, n);
      RekindOk(ck, segs, n, Live);
      var c1 := Rekind(ck, n, Live);
      JoinOk(c1, segs, q);
      assert Join(c1, q) == JoinNext(ck, q);
    }
  }

  lemma FreedOk(ck: Chunks, segs: seq<Segment>, p: int)
    requires LayoutOk(ck, segs) && p in ck && ck[p].kind == Live
    ensures RunBase(ck, p) in ck && LayoutOk(Freed(ck, p), segs)
  {
    hide LayoutOk, Shape, JoinBack, JoinNext, Rekind;
    JoinBackOk(ck, segs, p);
    var q, c := RunBase(ck, p), JoinBack(ck, p);
    JoinNextOk(c, segs, q);
    var d := JoinNext(c, q);
    if d[q].kind == Live {
      RekindOk(d, segs, q, Free);
    }
  }

  // ----- Freed, spelled out

  /** Where the free run that the live chunk `p` would belong to ends. */
  ghost function RunEnd(ck: Chunks, p: int): int
    requires p in ck
  {
    var n := p + ck[p].size;
    if n in ck && (ck[n].kind == Free || ck[n].kind == Top) then n + ck[n].size else n
  }

  /** That run: free, or the top. */
  ghost function RunChunk(ck: Chunks, p: int): Chunk
    requires p in ck
  {
    var n := p + ck[p].size;
    Chunk(RunEnd(ck, p) - RunBase(ck, p), if n in ck && ck[n].kind == Top then Top else Free, 0)
  }

  /** In `d` the single chunk `c` covers what the chunks of `ck` from `q` up to `e` covered. */
  ghost predicate Replaces(ck: Chunks, d: Chunks, q: int, e: int, c: Chunk) {
    && q in d && d[q] == c && c.size == e - q
    && e in d && e in ck && d[e] == ck[e].(prev := PrevFor(c))
    && (forall x | x in d && x != q && x != e :: x in ck && d[x] == ck[x])
    && (forall x | x in ck && !(q < x < e) :: x in d)
    && (forall x | x in d :: !(q < x < e))
  }

  lemma LastPrev(ck: Chunks, n: int)
    requires Shape(ck) && n in ck && ck[n].kind == Top
    ensures n + ck[n].size in ck && ck[n + ck[n].size].prev == 0 && ck[n + ck[n].size].kind == Foot
  {
    hide Shape;
    NextIn(ck, n);
  }

  lemma OnlyBetween(ck: Chunks, a: int, b: int, x: int)
    requires Shape(ck) && a in ck && b in ck && a + ck[a].size == b && a < x < b + ck[b].size && x in ck
    ensures x == b
  {
    hide Shape;
    if x < b {
      NotInside(ck, a, x);
    } else if x > b {
      NotInside(ck, b, x);
    }
  }

  lemma BackReplaces(ck: Chunks, p: int)
    requires Shape(ck) && Coalesced(ck) && p in ck && ck[p].kind == Live
    ensures Back(ck, p) && p + ck[p].size in ck
    ensures var q := RunBase(ck, p);
      Replaces(ck, JoinBack(ck, p), q, p + ck[p].size, Chunk(ck[p].prev + ck[p].size, Live, 0))
  {
    hide Shape;
    BackIn(ck, p);
    NextIn(ck, p);
    SizePositive(ck, p);
    var q, e := RunBase(ck, p), p + ck[p].size;
    SizePositive(ck, q);
    forall x | x in ck && q < x < e ensures q < p && x == p {
      if q < p {
        OnlyBetween(ck, q, p, x);
      } else {
        NotInside(ck, p, x);
      }
    }
  }

  lemma NextReplaces(ck: Chunks, q: int)
    requires Shape(ck) && Coalesced(ck) && q in ck && ck[q].kind == Live
    ensures q + ck[q].size in ck
    ensures Replaces(ck, JoinNext(ck, q), q, RunEnd(ck, q),
                     Chunk(RunEnd(ck, q) - q, if ck[q + ck[q].size].kind == Top then Top else Live, ck[q].prev))
  {
    hide Shape;
    NextIn(ck, q);
    SizePositive(ck, q);
    var n := q + ck[q].size;
    SizePositive(ck, n);
    if ck[n].kind == Top {
      LastPrev(ck, n);
    } else if ck[n].kind == Free {
      NextIn(ck, n);
    }
    forall x | x in ck && q < x < n + ck[n].size ensures x == n {
      OnlyBetween(ck, q, n, x);
    }
  }

  lemma RekindReplaces(ck: Chunks, d: Chunks, q: int, e: int, s: int)
    requires Replaces(ck, d, q, e, Chunk(s, Live, 0)) && q < e
    ensures q + d[q].size in d
    ensures Replaces(ck, Rekind(d, q, Free), q, e, Chunk(s, Free, 0))
  {
  }

  lemma ReplacesTwice(ck: Chunks, c: Chunks, d: Chunks, q: int, e: int, f: int, b: Chunk, k: Chunk)
    requires Replaces(ck, c, q, e, b) && Replaces(c, d, q, f, k) && q < e <= f && PrevFor(b) == 0 && ck[e].prev == 0
    ensures Replaces(ck, d, q, f, k)
  {
  }

  /** The layout between the two joins of Freed. */
  lemma BackKeeps(ck: Chunks, p: int)
    requires Shape(ck) && Coalesced(ck) && p in ck && ck[p].kind == Live && Back(ck, p)
    ensures Coalesced(JoinBack(ck, p))
    ensures var q, c := RunBase(ck, p), JoinBack(ck, p);
      && q in c && c[q].kind == Live && c[q].prev == 0
      && RunEnd(c, q) == RunEnd(ck, p) && q + c[q].size == p + ck[p].size
      && p + ck[p].size in c && p + ck[p].size in ck && c[p + ck[p].size] == ck[p + ck[p].size]
  {
    hide Shape;
    NextIn(ck, p);
    SizePositive(ck, p);
  }

  lemma FreedReplaces(ck: Chunks, segs: seq<Segment>, p: int)
    requires LayoutOk(ck, segs) && Coalesced(ck) && p in ck && ck[p].kind == Live
    ensures RunBase(ck, p) in ck && Replaces(ck, Freed(ck, p), RunBase(ck, p), RunEnd(ck, p), RunChunk(ck, p))
  {
    hide LayoutOk, Shape, JoinBack, JoinNext, Rekind, Replaces, Coalesced, RunEnd;
    OkShape(ck, segs);
    BackIn(ck, p);
    BackKeeps(ck, p);
    BackReplaces(ck, p);
    JoinBackOk(ck, segs, p);
    var q, c, n := RunBase(ck, p), JoinBack(ck, p), p + ck[p].size;
    OkShape(c, segs);
    NextReplaces(c, q);
    JoinNextOk(c, segs, q);
    var d, e := JoinNext(c, q), RunEnd(ck, p);
    RunEndBound(ck, p);
    var k := if ck[n].kind == Top then Top else Live;
    ReplacesTwice(ck, c, d, q, n, e, Chunk(ck[p].prev + ck[p].size, Live, 0), Chunk(e - q, k, 0));
    assert d[q] == Chunk(e - q, k, 0) by { ReplacesAt(ck, d, q, e, Chunk(e - q, k, 0)); }
    if k == Live {
      RekindReplaces(ck, d, q, e, e - q);
    }
  }

  lemma RunEndBound(ck: Chunks, p: int)
    requires Shape(ck) && p in ck && ck[p].kind == Live
    ensures p + ck[p].size in ck && RunBase(ck, p) <= p < p + ck[p].size <= RunEnd(ck, p)
    ensures ck[p + ck[p].size].prev == 0
  {
    hide Shape;
    NextIn(ck, p);
    SizePositive(ck, p);
    SizePositive(ck, p + ck[p].size);
    BackIn(ck, p);
  }

  lemma ReplacesAt(ck: Chunks, d: Chunks, q: int, e: int, c: Chunk)
    requires Replaces(ck, d, q, e, c)
    ensures q in d && d[q] == c
  {
  }

  // ----- What freeing keeps

  /** What follows a merged run is in use. */
  lemma AfterRun(ck: Chunks, p: int)
    requires Shape(ck) && Coalesced(ck) && p in ck && ck[p].kind == Live && RunEnd(ck, p) in ck
    ensures var e := RunEnd(ck, p);
      if RunChunk(ck, p).kind == Top then ck[e].kind == Foot else ck[e].kind == Live || ck[e].kind == Record
  {
    hide Shape;
    NextIn(ck, p);
    var n := p + ck[p].size;
    if ck[n].kind == Free || ck[n].kind == Top {
      NextIn(ck, n);
      SizePositive(ck, n);
    }
  }

  lemma FreedCoalesced(ck: Chunks, segs: seq<Segment>, p: int)
    requires LayoutOk(ck, segs) && Coalesced(ck) && p in ck && ck[p].kind == Live
    ensures RunBase(ck, p) in ck && Coalesced(Freed(ck, p))
  {
    hide LayoutOk, Shape, Freed, RunEnd, RunBase;
    OkShape(ck, segs);
    FreedReplaces(ck, segs, p);
    AfterRun(ck, p);
  }

  /** Where the chunks of a run are. */
  lemma InRun(ck: Chunks, p: int, x: int)
    requires Shape(ck) && Coalesced(ck) && p in ck && ck[p].kind == Live && x in ck
    requires RunBase(ck, p) <= x < RunEnd(ck, p)
    ensures x == RunBase(ck, p) || x == p || x == p + ck[p].size
    ensures x != p ==> ck[x].kind == Free || ck[x].kind == Top
  {
    hide Shape;
    BackIn(ck, p);
    NextIn(ck, p);
    if x < p {
      OnlyBetween2(ck, RunBase(ck, p), p, x);
    } else if x > p {
      OnlyBetween2(ck, p, RunEnd(ck, p), x);
    }
  }

  lemma OnlyBetween2(ck: Chunks, a: int, b: int, x: int)
    requires Shape(ck) && a in ck && x in ck && a <= x < b
    requires b <= a + ck[a].size || (a + ck[a].size in ck && b <= a + ck[a].size + ck[a + ck[a].size].size)
    ensures x == a || x == a + ck[a].size
  {
    hide Shape;
    if x > a {
      if x < a + ck[a].size {
        NotInside(ck, a, x);
      } else if x > a + ck[a].size {
        NotInside(ck, a + ck[a].size, x);
      }
    }
  }

  lemma FreedLive(ck: Chunks, segs: seq<Segment>, p: int)
    requires LayoutOk(ck, segs) && Coalesced(ck) && p in ck && ck[p].kind == Live
    ensures RunBase(ck, p) in ck && LiveOf(Freed(ck, p)) == LiveOf(ck) - {p}
  {
    hide LayoutOk, Shape, Freed, RunEnd, RunBase, Coalesced;
    OkShape(ck, segs);
    FreedReplaces(ck, segs, p);
    RunEndBound(ck, p);
    AfterRun(ck, p);
    var q, e, d := RunBase(ck, p), RunEnd(ck, p), Freed(ck, p);
    forall x | x in ck && q <= x < e && x != p ensures ck[x].kind != Live {
      InRun(ck, p, x);
    }
    forall x ensures x in d && d[x].kind == Live <==> x in ck && ck[x].kind == Live && x != p {
      LiveAt(ck, d, p, q, e, RunChunk(ck, p), x);
    }
    assert forall x | x in d && d[x].kind == Live :: d[x].size == ck[x].size;
  }

  lemma LiveAt(ck: Chunks, d: Chunks, p: int, q: int, e: int, c: Chunk, x: int)
    requires Replaces(ck, d, q, e, c) && c.kind != Live && q <= p < e
    requires forall y | y in ck && q <= y < e && y != p :: ck[y].kind != Live
    ensures x in d && d[x].kind == Live <==> x in ck && ck[x].kind == Live && x != p
  {
  }

  /** The free chunks once `p` is freed. */
  lemma FreedFree(ck: Chunks, segs: seq<Segment>, p: int)
    requires LayoutOk(ck, segs) && Coalesced(ck) && p in ck && ck[p].kind == Live
    ensures RunBase(ck, p) in ck && p + ck[p].size in ck
    ensures var q, c, n := RunBase(ck, p), RunChunk(ck, p), p + ck[p].size;
      var rest := FreeOf(ck) - {q, n};
      FreeOf(Freed(ck, p)) == if c.kind == Top then rest else rest[q := c.size]
  {
    hide LayoutOk, Shape, Freed, RunEnd, RunBase, Coalesced;
    OkShape(ck, segs);
    FreedReplaces(ck, segs, p);
    RunEndBound(ck, p);
    AfterRun(ck, p);
    var q, e, d, n := RunBase(ck, p), RunEnd(ck, p), Freed(ck, p), p + ck[p].size;
    forall x | x in ck && q <= x < e && x != q && x != n ensures ck[x].kind != Free {
      InRun(ck, p, x);
    }
    assert n in ck && (n < e || ck[n].kind != Free) by { NextEnds(ck, p); }
    forall x ensures x in d && x != q && d[x].kind == Free <==> x in ck && ck[x].kind == Free && x != q && x != n {
      FreeAt(ck, d, q, n, e, RunChunk(ck, p), x);
    }
    assert forall x | x in d && x != q && d[x].kind == Free :: d[x].size == ck[x].size;
  }

  lemma NextEnds(ck: Chunks, p: int)
    requires Shape(ck) && p in ck && ck[p].kind == Live
    ensures var n := p + ck[p].size; n in ck && (n < RunEnd(ck, p) || ck[n].kind != Free)
  {
    hide Shape;
    NextIn(ck, p);
    SizePositive(ck, p + ck[p].size);
  }

  lemma FreeAt(ck: Chunks, d: Chunks, q: int, n: int, e: int, c: Chunk, x: int)
    requires Replaces(ck, d, q, e, c) && q < n <= e && (n < e || (n in ck && ck[n].kind != Free)) && ck[e].kind != Free
    requires forall y | y in ck && q <= y < e && y != q && y != n :: ck[y].kind != Free
    ensures x in d && x != q && d[x].kind == Free <==> x in ck && ck[x].kind == Free && x != q && x != n
  {
  }
}
