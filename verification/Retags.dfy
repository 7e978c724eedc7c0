/** The macros that write heads and feet, and the layouts that their writes spell out. */
module Retags {
  import opened Memory
  import opened Layout
  import opened Segments
  import opened Tags
  import opened Moves

  // ----- The macros, for chunks whose sizes are multiples of 16

  /** set_inuse */
  function SetInuse(m: Mem, p: int, s: int): Mem {
    var m' := m[p + HEAD := Rd(m, p + HEAD) % 2 + s + CINUSE_BIT];
    m'[p + s + HEAD := OrPinuse(Rd(m', p + s + HEAD))]
  }

  /** set_inuse_and_pinuse */
  function SetInuseAndPinuse(m: Mem, p: int, s: int): Mem {
    var m' := m[p + HEAD := s + PINUSE_BIT + CINUSE_BIT];
    m'[p + s + HEAD := OrPinuse(Rd(m', p + s + HEAD))]
  }

  /** set_size_and_pinuse_of_inuse_chunk */
  function SetSizeOfInuse(m: Mem, p: int, s: int): Mem {
    m[p + HEAD := s + PINUSE_BIT + CINUSE_BIT]
  }

  /** set_size_and_pinuse_of_free_chunk */
  function SetSizeOfFree(m: Mem, p: int, s: int): Mem {
    m[p + HEAD := s + PINUSE_BIT][p + s := s]
  }

  /** set_free_with_pinuse */
  function SetFree(m: Mem, p: int, s: int, n: int): Mem {
    SetSizeOfFree(m[n + HEAD := ClearPinuse(Rd(m, n + HEAD))], p, s)
  }

  // ----- From writes to layouts

  /** `n` spells out the chunks `xs` of layout `d`; all else is as in `m` and layout `ck`. */
  ghost predicate Retagged(m: Mem, n: Mem, ck: Chunks, d: Chunks, xs: set<int>) {
    && (forall x | x in d && x !in xs :: x in ck && d[x] == ck[x])
    && (forall x | x in xs :: x in d && TagOk(n, x, d[x]) && (d[x].prev > 0 || Rd(n, x) == Rd(m, x)))
    && (forall w {:trigger Rd(n, w)} :: w - HEAD !in xs && w !in xs ==> Rd(n, w) == Rd(m, w))
  }

  ghost predicate Aligned(ck: Chunks) {
    forall x | x in ck :: x % 16 == 0
  }

  lemma ShapeAligned(ck: Chunks)
    requires Shape(ck)
    ensures Aligned(ck)
  {
    hide Shape;
    forall x | x in ck ensures x % 16 == 0 {
      ChunkIn(ck, x);
    }
  }

  lemma Apart8(x: int, y: int)
    requires x % 16 == 0 && y % 16 == 0
    ensures x + 8 != y
  {
  }

  lemma KeptTag(m: Mem, n: Mem, ck: Chunks, d: Chunks, xs: set<int>, x: int)
    requires Retagged(m, n, ck, d, xs) && Aligned(d) && Tagged(m, ck) && x in d && x !in xs
    ensures TagOk(n, x, d[x])
  {
    assert TagOk(m, x, ck[x]);
    if x + HEAD in xs { Apart8(x, x + HEAD); }
    if x - HEAD in xs { Apart8(x - HEAD, x); }
  }

  lemma Retag(m: Mem, n: Mem, ck: Chunks, d: Chunks, xs: set<int>)
    requires Retagged(m, n, ck, d, xs) && Shape(d) && Tagged(m, ck)
    ensures Tagged(n, d) && OnlyTags(m, n, d)
  {
    hide Shape, TagOk;
    ShapeAligned(d);
    forall x | x in d ensures TagOk(n, x, d[x]) {
      if x !in xs {
        KeptTag(m, n, ck, d, xs, x);
      }
    }
  }

  lemma Heads(s: int, prev: int)
    ensures HeadWord(Chunk(s, Live, prev)) == s + CINUSE_BIT + (if prev == 0 then PINUSE_BIT else 0)
    ensures HeadWord(Chunk(s, Record, prev)) == HeadWord(Chunk(s, Live, prev))
    ensures HeadWord(Chunk(s, Free, prev)) == s + (if prev == 0 then PINUSE_BIT else 0)
    ensures HeadWord(Chunk(s, Top, prev)) == HeadWord(Chunk(s, Free, prev))
  {
  }

  /** A head word does not depend on how large the free chunk before is. */
  lemma SameHead(c: Chunk, q: int)
    requires c.prev > 0 && q > 0
    ensures HeadWord(c.(prev := q)) == HeadWord(c)
  {
  }

  // ----- Taking a free chunk, or the front of one

  lemma TakeTags(m: Mem, ck: Chunks, p: int)
    requires Shape(ck) && Tagged(m, ck) && p in ck && ck[p].kind == Free && ck[p].prev == 0
    requires p + ck[p].size in ck && Shape(Take(ck, p))
    ensures var n := SetInuseAndPinuse(m, p, ck[p].size); Tagged(n, Take(ck, p)) && OnlyTags(m, n, Take(ck, p))
  {
    hide Shape, HeadWord, OrPinuse;
    var s := ck[p].size;
    var e := p + s;
    NextIn(ck, p);
    ChunkIn(ck, e);
    SizePositive(ck, p);
    PinuseBits(e, ck[e], 1);
    Heads(s, 0);
    assert TagOk(m, p, ck[p]) && TagOk(m, e, ck[e]);
    Retag(m, SetInuseAndPinuse(m, p, s), ck, Take(ck, p), {p, e});
  }

  lemma SplitTags(m: Mem, ck: Chunks, p: int, s: int)
    requires Shape(ck) && Tagged(m, ck) && CanSplit(ck, p, s) && ck[p].prev == 0
    requires p + ck[p].size in ck && p + s !in ck && Shape(Split(ck, p, s))
    ensures var n := SetSizeOfFree(SetSizeOfInuse(m, p, s), p + s, ck[p].size - s);
      Tagged(n, Split(ck, p, s)) && OnlyTags(m, n, Split(ck, p, s))
  {
    hide Shape, HeadWord;
    var e, r := p + ck[p].size, p + s;
    var d := Split(ck, p, s);
    NextIn(ck, p);
    ChunkIn(ck, p);
    ChunkIn(ck, e);
    Heads(s, 0);
    Heads(ck[p].size - s, 0);
    SameHead(ck[e], ck[p].size - s);
    assert TagOk(m, p, ck[p]) && TagOk(m, e, ck[e]);
    Retag(m, SetSizeOfFree(SetSizeOfInuse(m, p, s), r, ck[p].size - s), ck, d, {p, r, e});
  }

  lemma CutTopTags(m: Mem, ck: Chunks, p: int, s: int)
    requires Shape(ck) && Tagged(m, ck) && CanCutTop(ck, p, s) && ck[p].prev == 0
    requires p + s !in ck && Shape(CutTop(ck, p, s))
    ensures var n := SetSizeOfInuse(m[p + s + HEAD := ck[p].size - s + PINUSE_BIT], p, s);
      Tagged(n, CutTop(ck, p, s)) && OnlyTags(m, n, CutTop(ck, p, s))
  {
    hide Shape, HeadWord;
    ChunkIn(ck, p);
    Heads(s, 0);
    Heads(ck[p].size - s, 0);
    assert TagOk(m, p, ck[p]);
    Retag(m, SetSizeOfInuse(m[p + s + HEAD := ck[p].size - s + PINUSE_BIT], p, s), ck, CutTop(ck, p, s), {p, p + s});
  }

  // ----- Freeing

  /** The writes that end a free, by what the freed run `q` to `e` became and what followed the chunk. */
  ghost predicate RunWrites(m: Mem, n: Mem, ck: Chunks, p: int)
    requires p in ck
  {
    var q, e, c := RunBase(ck, p), RunEnd(ck, p), RunChunk(ck, p);
    if c.kind == Top then n == m[q + HEAD := c.size + PINUSE_BIT]
    else if e == p + ck[p].size then n == SetFree(m, q, c.size, e)
    else n == SetSizeOfFree(m, q, c.size) || n == SetFree(m, q, c.size, e)
  }

  lemma TopRunTags(m: Mem, ck: Chunks, d: Chunks, q: int, e: int, s: int)
    requires Tagged(m, ck) && Shape(d) && Replaces(ck, d, q, e, Chunk(s, Top, 0)) && q in ck && s > 0
    requires ck[e].kind == Foot && ck[e].prev == 0
    ensures var n := m[q + HEAD := s + PINUSE_BIT]; Tagged(n, d) && OnlyTags(m, n, d)
  {
    hide Shape, HeadWord;
    Heads(s, 0);
    assert d[e] == ck[e];
    Retag(m, m[q + HEAD := s + PINUSE_BIT], ck, d, {q});
  }

  lemma FreeRunTags(m: Mem, ck: Chunks, d: Chunks, q: int, e: int, s: int, n: Mem)
    requires Tagged(m, ck) && Shape(ck) && Shape(d) && Replaces(ck, d, q, e, Chunk(s, Free, 0)) && q in ck && s > 0
    requires ck[e].kind == Live || ck[e].kind == Record
    requires n == SetFree(m, q, s, e) || (ck[e].prev > 0 && n == SetSizeOfFree(m, q, s))
    ensures Tagged(n, d) && OnlyTags(m, n, d)
  {
    hide Shape, HeadWord, ClearPinuse;
    ChunkIn(ck, e);
    ChunkIn(d, q);
    Heads(s, 0);
    if ck[e].prev > 0 {
      SameHead(ck[e], s);
    }
    PinuseBits(e, ck[e], s);
    assert TagOk(m, e, ck[e]);
    Retag(m, n, ck, d, {q, e});
  }

  lemma RunPrev(ck: Chunks, p: int)
    requires Shape(ck) && p in ck && ck[p].kind == Live
    ensures p + ck[p].size in ck && RunEnd(ck, p) in ck
    ensures ck[RunEnd(ck, p)].prev >= 0
    ensures var e := RunEnd(ck, p); ck[e].prev > 0 <==> e != p + ck[p].size && RunChunk(ck, p).kind != Top
  {
    hide Shape;
    NextIn(ck, p);
    SizePositive(ck, p);
    var n := p + ck[p].size;
    if ck[n].kind == Free || ck[n].kind == Top {
      NextIn(ck, n);
      SizePositive(ck, n);
    }
    ChunkIn(ck, RunEnd(ck, p));
  }

  lemma FreedTags(m: Mem, n: Mem, ck: Chunks, segs: seq<Segment>, p: int)
    requires LayoutOk(ck, segs) && Coalesced(ck) && Tagged(m, ck) && p in ck && ck[p].kind == Live
    requires RunWrites(m, n, ck, p)
    ensures RunBase(ck, p) in ck && Tagged(n, Freed(ck, p)) && OnlyTags(m, n, Freed(ck, p))
  {
    hide LayoutOk, Shape, Freed, RunEnd, RunBase, Coalesced, Replaces, Tagged, SetFree, SetSizeOfFree;
    OkShape(ck, segs);
    FreedReplaces(ck, segs, p);
    FreedOk(ck, segs, p);
    OkShape(Freed(ck, p), segs);
    RunEndBound(ck, p);
    RunPrev(ck, p);
    AfterRun(ck, p);
    var q, e, c := RunBase(ck, p), RunEnd(ck, p), RunChunk(ck, p);
    if c.kind == Top {
      TopRunTags(m, ck, Freed(ck, p), q, e, c.size);
    } else {
      FreeRunTags(m, ck, Freed(ck, p), q, e, c.size, n);
    }
  }
}
