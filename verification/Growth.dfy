/** How the layout changes when the heap gains system memory or gives some back. */
module Growth {
  import opened Bins
  import opened Layout
  import opened Segments

  const TOP_FOOT: Chunk := Chunk(TOP_FOOT_SIZE, Foot, 0)

  /** A fresh region becomes the newest segment: a top, and its foot. */
  ghost function AddTop(ck: Chunks, base: int, size: int): Chunks {
    ck[base := Chunk(size - TOP_FOOT_SIZE, Top, 0)][base + size - TOP_FOOT_SIZE := TOP_FOOT]
  }

  /** A fresh region that ends where a segment begins becomes one live chunk of that segment. */
  ghost function Prepend(ck: Chunks, base: int, size: int): Chunks {
    ck[base := Chunk(size, Live, 0)]
  }

  /** The top `a` changes its size. */
  ghost function ResizeTop(ck: Chunks, a: int, s: int): Chunks
    requires a in ck
  {
    (ck - {a + ck[a].size})[a := Chunk(s, Top, ck[a].prev)][a + s := TOP_FOOT]
  }

  /** The segment of the top `a` is about to be an older one: the end of the segment is used for its
      record and for fenceposts; what is left of the top is a chunk of its own. */
  ghost function Retire(ck: Chunks, a: int): Chunks
    requires a in ck
  {
    var s := ck[a].size;
    if s < MIN_CHUNK_SIZE then
      (ck - {a + s})[a := Chunk(RECORD_SIZE, Record, ck[a].prev)]
          [a + RECORD_SIZE := Chunk(s + TOP_FOOT_SIZE - RECORD_SIZE, Fence, 0)]
    else
      ck[a := Chunk(s, Live, ck[a].prev)][a + s := Chunk(RECORD_SIZE, Record, 0)]
        [a + s + RECORD_SIZE := Chunk(TOP_FOOT_SIZE - RECORD_SIZE, Fence, 0)]
  }

  /** The chunks from `lo` up to `hi` are gone. */
  ghost function Drop(ck: Chunks, lo: int, hi: int): Chunks {
    map x | x in ck && !(lo <= x < hi) :: ck[x]
  }

  /** Where the record of the retired segment is. */
  ghost function RecordAt(ck: Chunks, a: int): int
    requires a in ck
  {
    if ck[a].size < MIN_CHUNK_SIZE then a else a + ck[a].size
  }

  /** The chunks of `ck` outside `skip` keep out of `lo` to `hi`. */
  ghost predicate Away(ck: Chunks, skip: set<int>, lo: int, hi: int) {
    forall x | x in ck && x !in skip :: x + ck[x].size <= lo || hi <= x
  }

  ghost predicate Usable(base: int, size: int) {
    base > 0 && base % 16 == 0 && size % 16 == 0 && size > TOP_FOOT_SIZE && ClearOfState(base, size)
  }

  // ----- Shapes

  lemma ClearPart(a: int, s: int, b: int, t: int)
    requires ClearOfState(a, s) && a <= b && t > 0 && b + t <= a + s
    ensures ClearOfState(b, t)
  {
  }

  lemma AddTopShape(ck: Chunks, base: int, size: int)
    requires Shape(ck) && Usable(base, size) && Away(ck, {}, base, base + size)
    ensures Shape(AddTop(ck, base, size))
  {
    hide ChunkOk, NextOk, PrevOk, Disjoint, ClearOfState;
    var d, f := AddTop(ck, base, size), base + size - TOP_FOOT_SIZE;
    ClearPart(base, size, base, size - TOP_FOOT_SIZE);
    ClearPart(base, size, f, TOP_FOOT_SIZE);
    assert ChunkOk(base, d[base]) && ChunkOk(f, d[f]) by { AddTopChunks(base, size); }
    forall x | x in ck ensures ck[x].size > 0 && x != base && x != f { SizePositive(ck, x); }
    assert Disjoint(d) by { AddTopDisjoint(ck, base, size); }
    forall x {:trigger NextOk(d, x)} | x in d && !Last(d[x].kind)
      ensures NextOk(d, x)
    {
      AddTopNext(ck, base, size, x);
    }
    forall x {:trigger PrevOk(d, x)} | x in d ensures PrevOk(d, x) { AddTopPrev(ck, base, size, x); }
  }

  lemma AddTopChunks(base: int, size: int)
    requires Usable(base, size)
    ensures ChunkOk(base, Chunk(size - TOP_FOOT_SIZE, Top, 0)) && ChunkOk(base + size - TOP_FOOT_SIZE, TOP_FOOT)
  {
    ClearPart(base, size, base, size - TOP_FOOT_SIZE);
    ClearPart(base, size, base + size - TOP_FOOT_SIZE, TOP_FOOT_SIZE);
  }

  lemma AddTopDisjoint(ck: Chunks, base: int, size: int)
    requires Disjoint(ck) && Away(ck, {}, base, base + size) && size > TOP_FOOT_SIZE
    requires forall x | x in ck :: ck[x].size > 0 && x != base && x != base + size - TOP_FOOT_SIZE
    ensures Disjoint(AddTop(ck, base, size))
  {
  }

  lemma AddTopNext(ck: Chunks, base: int, size: int, x: int)
    requires Shape(ck) && Usable(base, size) && Away(ck, {}, base, base + size)
    requires x in AddTop(ck, base, size) && !Last(AddTop(ck, base, size)[x].kind)
    ensures NextOk(AddTop(ck, base, size), x)
  {
    hide Shape, ChunkOk, ClearOfState;
    if x in ck && x != base {
      NextIn(ck, x);
      SizePositive(ck, x + ck[x].size);
    }
  }

  lemma AddTopPrev(ck: Chunks, base: int, size: int, x: int)
    requires Shape(ck) && Usable(base, size) && Away(ck, {}, base, base + size) && x in AddTop(ck, base, size)
    ensures PrevOk(AddTop(ck, base, size), x)
  {
    hide Shape, ChunkOk, ClearOfState;
    if x in ck && x != base && x != base + size - TOP_FOOT_SIZE {
      ChunkIn(ck, x);
      if ck[x].prev > 0 {
        SizePositive(ck, x - ck[x].prev);
      }
    }
  }

  lemma PrependShape(ck: Chunks, base: int, size: int)
    requires Shape(ck) && Usable(base, size) && Away(ck, {}, base, base + size)
    requires base + size in ck && ck[base + size].prev == 0 && !Last(ck[base + size].kind)
    ensures Shape(Prepend(ck, base, size))
  {
    hide ChunkOk, NextOk, PrevOk, Disjoint, ClearOfState;
    var d := Prepend(ck, base, size);
    assert ChunkOk(base, d[base]) by { PrependChunk(base, size); }
    forall x | x in ck ensures ck[x].size > 0 && x != base { SizePositive(ck, x); }
    assert Disjoint(d) by { PrependDisjoint(ck, base, size); }
    forall x {:trigger NextOk(d, x)} | x in d && !Last(d[x].kind)
      ensures NextOk(d, x)
    {
      PrependNext(ck, base, size, x);
    }
    forall x {:trigger PrevOk(d, x)} | x in d ensures PrevOk(d, x) { PrependPrev(ck, base, size, x); }
  }

  lemma PrependChunk(base: int, size: int)
    requires Usable(base, size)
    ensures ChunkOk(base, Chunk(size, Live, 0))
  {
  }

  lemma PrependDisjoint(ck: Chunks, base: int, size: int)
    requires Disjoint(ck) && Away(ck, {}, base, base + size) && size > 0
    ensures Disjoint(Prepend(ck, base, size))
  {
  }

  lemma PrependNext(ck: Chunks, base: int, size: int, x: int)
    requires Shape(ck) && Usable(base, size) && Away(ck, {}, base, base + size)
    requires base + size in ck && ck[base + size].prev == 0 && !Last(ck[base + size].kind)
    requires x in Prepend(ck, base, size) && !Last(Prepend(ck, base, size)[x].kind)
    ensures NextOk(Prepend(ck, base, size), x)
  {
    hide Shape, ChunkOk, ClearOfState;
    if x != base {
      NextIn(ck, x);
      SizePositive(ck, x + ck[x].size);
    }
  }

  lemma PrependPrev(ck: Chunks, base: int, size: int, x: int)
    requires Shape(ck) && Usable(base, size) && Away(ck, {}, base, base + size) && x in Prepend(ck, base, size)
    ensures PrevOk(Prepend(ck, base, size), x)
  {
    hide Shape, ChunkOk, ClearOfState;
    if x != base {
      ChunkIn(ck, x);
      if ck[x].prev > 0 {
        SizePositive(ck, x - ck[x].prev);
      }
    }
  }

  ghost predicate CanResize(ck: Chunks, a: int, s: int) {
    && a in ck && ck[a].kind == Top && s > 0 && s % 16 == 0 && ClearOfState(a, s + TOP_FOOT_SIZE)
    && Away(ck, {a, a + ck[a].size}, a, a + s + TOP_FOOT_SIZE)
  }

  lemma ResizeChunk(ck: Chunks, a: int, s: int, x: int)
    requires Shape(ck) && CanResize(ck, a, s) && x in ResizeTop(ck, a, s)
    ensures ChunkOk(x, ResizeTop(ck, a, s)[x])
  {
    hide Shape, ClearOfState;
    ChunkIn(ck, a);
    ClearPart(a, s + TOP_FOOT_SIZE, a, s);
    ClearPart(a, s + TOP_FOOT_SIZE, a + s, TOP_FOOT_SIZE);
    if x != a && x != a + s {
      ChunkIn(ck, x);
    }
  }

  lemma ResizeDisjoint(ck: Chunks, a: int, s: int)
    requires Disjoint(ck) && CanResize(ck, a, s) && forall x | x in ck :: ck[x].size > 0
    ensures Disjoint(ResizeTop(ck, a, s))
  {
    hide ClearOfState;
  }

  lemma TopThenFoot(ck: Chunks, a: int)
    requires Shape(ck) && a in ck && ck[a].kind == Top
    ensures a + ck[a].size in ck && ck[a + ck[a].size] == TOP_FOOT && ck[a].size > 0 && ck[a].size % 16 == 0
  {
    hide Shape;
    NextIn(ck, a);
    ChunkIn(ck, a + ck[a].size);
  }

  lemma ResizeNext(ck: Chunks, a: int, s: int, x: int)
    requires Shape(ck) && CanResize(ck, a, s) && x in ResizeTop(ck, a, s) && !Last(ResizeTop(ck, a, s)[x].kind)
    ensures NextOk(ResizeTop(ck, a, s), x)
  {
    hide Shape, ChunkOk, ClearOfState;
    TopThenFoot(ck, a);
    if x != a && x != a + s {
      NextIn(ck, x);
      var n := x + ck[x].size;
      SizePositive(ck, n);
      if n == a + ck[a].size {
        OnePrev(ck, x, a);
      }
    }
  }

  lemma ResizePrev(ck: Chunks, a: int, s: int, x: int)
    requires Shape(ck) && CanResize(ck, a, s) && x in ResizeTop(ck, a, s)
    ensures PrevOk(ResizeTop(ck, a, s), x)
  {
    hide Shape, ChunkOk, ClearOfState;
    TopThenFoot(ck, a);
    if x != a + s {
      ChunkIn(ck, x);
      if ck[x].prev > 0 {
        SizePositive(ck, x - ck[x].prev);
      }
    }
  }

  lemma ResizeShape(ck: Chunks, a: int, s: int)
    requires Shape(ck) && CanResize(ck, a, s)
    ensures Shape(ResizeTop(ck, a, s))
  {
    hide ChunkOk, NextOk, PrevOk, Disjoint, ClearOfState, Away;
    var d := ResizeTop(ck, a, s);
    forall x | x in ck ensures ck[x].size > 0 { SizePositive(ck, x); }
    ResizeDisjoint(ck, a, s);
    forall x | x in d ensures ChunkOk(x, d[x]) { ResizeChunk(ck, a, s, x); }
    forall x {:trigger NextOk(d, x)} | x in d && !Last(d[x].kind) ensures NextOk(d, x) { ResizeNext(ck, a, s, x); }
    forall x {:trigger PrevOk(d, x)} | x in d ensures PrevOk(d, x) { ResizePrev(ck, a, s, x); }
  }

  lemma RetireDisjoint(ck: Chunks, a: int)
    requires Disjoint(ck) && a in ck && a + ck[a].size in ck && ck[a + ck[a].size].size == TOP_FOOT_SIZE
    requires forall x | x in ck :: ck[x].size > 0 && x != RecordAt(ck, a) + RECORD_SIZE
    ensures Disjoint(Retire(ck, a))
  {
  }

  lemma RetireChunk(ck: Chunks, a: int, x: int)
    requires Shape(ck) && a in ck && ck[a].kind == Top && x in Retire(ck, a)
    ensures ChunkOk(x, Retire(ck, a)[x])
  {
    hide Shape, ClearOfState;
    TopThenFoot(ck, a);
    var f := a + ck[a].size;
    ChunkIn(ck, a);
    ChunkIn(ck, f);
    var c := RecordAt(ck, a);
    assert ClearOfState(a, ck[a].size + TOP_FOOT_SIZE) by { JoinClear(a, ck[a].size, TOP_FOOT_SIZE); }
    ClearPart(a, ck[a].size + TOP_FOOT_SIZE, c, RECORD_SIZE);
    ClearPart(a, ck[a].size + TOP_FOOT_SIZE, c + RECORD_SIZE, f + TOP_FOOT_SIZE - c - RECORD_SIZE);
    if x in ck {
      ChunkIn(ck, x);
    }
  }

  lemma RetireNext(ck: Chunks, a: int, x: int)
    requires Shape(ck) && a in ck && ck[a].kind == Top && x in Retire(ck, a) && !Last(Retire(ck, a)[x].kind)
    ensures NextOk(Retire(ck, a), x)
  {
    hide Shape, ChunkOk;
    TopThenFoot(ck, a);
    if x in ck && x != a && x != a + ck[a].size {
      NextIn(ck, x);
      var n := x + ck[x].size;
      if n == a + ck[a].size {
        OnePrev(ck, x, a);
      }
      if a < n < a + ck[a].size {
        NotInside(ck, a, n);
      }
      if a + ck[a].size < n < a + ck[a].size + TOP_FOOT_SIZE {
        NotInside(ck, a + ck[a].size, n);
      }
    }
  }

  lemma RetirePrev(ck: Chunks, a: int, x: int)
    requires Shape(ck) && a in ck && ck[a].kind == Top && x in Retire(ck, a)
    ensures PrevOk(Retire(ck, a), x)
  {
    hide Shape, ChunkOk;
    TopThenFoot(ck, a);
    if x in ck {
      ChunkIn(ck, x);
      var p := x - ck[x].prev;
      if ck[x].prev > 0 {
        if a < p < a + ck[a].size {
          NotInside(ck, a, p);
        }
        if a + ck[a].size < p < a + ck[a].size + TOP_FOOT_SIZE {
          NotInside(ck, a + ck[a].size, p);
        }
      }
    }
  }

  lemma RetireShape(ck: Chunks, a: int)
    requires Shape(ck) && a in ck && ck[a].kind == Top
    ensures Shape(Retire(ck, a))
  {
    hide ChunkOk, NextOk, PrevOk, Disjoint;
    var d := Retire(ck, a);
    TopThenFoot(ck, a);
    forall x | x in ck ensures ck[x].size > 0 && x != RecordAt(ck, a) + RECORD_SIZE {
      SizePositive(ck, x);
      if a < x < a + ck[a].size {
        NotInside(ck, a, x);
      }
      if a + ck[a].size < x < a + ck[a].size + TOP_FOOT_SIZE {
        NotInside(ck, a + ck[a].size, x);
      }
    }
    RetireDisjoint(ck, a);
    forall x | x in d ensures ChunkOk(x, d[x]) { RetireChunk(ck, a, x); }
    forall x {:trigger NextOk(d, x)} | x in d && !Last(d[x].kind) ensures NextOk(d, x) { RetireNext(ck, a, x); }
    forall x {:trigger PrevOk(d, x)} | x in d ensures PrevOk(d, x) { RetirePrev(ck, a, x); }
  }

  /** No chunk outside `lo` to `hi` has its neighbour inside. */
  ghost predicate Closed(ck: Chunks, lo: int, hi: int) {
    && (forall x | x in ck && !(lo <= x < hi) && !Last(ck[x].kind) :: !(lo <= x + ck[x].size < hi))
    && (forall x | x in ck && !(lo <= x < hi) && ck[x].prev > 0 :: !(lo <= x - ck[x].prev < hi))
  }

  lemma DropShape(ck: Chunks, lo: int, hi: int)
    requires Shape(ck) && Closed(ck, lo, hi)
    ensures Shape(Drop(ck, lo, hi))
  {
    hide ChunkOk, Shape;
    var d := Drop(ck, lo, hi);
    forall x | x in d ensures ChunkOk(x, d[x]) { ChunkIn(ck, x); }
    forall x {:trigger NextOk(d, x)} | x in d && !Last(d[x].kind) ensures NextOk(d, x) { NextIn(ck, x); }
    forall x {:trigger PrevOk(d, x)} | x in d ensures PrevOk(d, x) { ChunkIn(ck, x); }
    DropDisjoint(ck, lo, hi);
    ShapeIs(d);
  }

  lemma ShapeIs(ck: Chunks)
    requires (forall a | a in ck :: ChunkOk(a, ck[a])) && Disjoint(ck)
    requires forall a {:trigger NextOk(ck, a)} | a in ck && !Last(ck[a].kind) :: NextOk(ck, a)
    requires forall a {:trigger PrevOk(ck, a)} | a in ck :: PrevOk(ck, a)
    ensures Shape(ck)
  {
  }

  lemma DropDisjoint(ck: Chunks, lo: int, hi: int)
    requires Shape(ck)
    ensures Disjoint(Drop(ck, lo, hi))
  {
    hide ChunkOk, NextOk, PrevOk;
  }
}
