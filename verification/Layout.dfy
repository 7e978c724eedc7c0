/** The chunks of the heap: how they tile its segments, and the few ways in which a layout changes. */
module Layout {
  import opened Bins

  /** Live chunks belong to callers and Record chunks hold segment records; Free chunks are in a bin or
      are the designated victim; Top is the last chunk of the newest segment, followed by Foot; Fence
      is the run of fenceposts that ends an older segment. */
  datatype Kind = Live | Record | Free | Top | Foot | Fence

  /** `prev` is the size of the chunk just before if that chunk is free, and 0 (pinuse) otherwise. */
  datatype Chunk = Chunk(size: int, kind: Kind, prev: int)

  type Chunks = map<int, Chunk>

  const MIN_CHUNK_SIZE: int := 32
  const TOP_FOOT_SIZE: int := 80
  const FENCEPOST_HEAD: int := 11
  const PINUSE_BIT: int := 1
  const CINUSE_BIT: int := 2

  // ----- Layouts

  /** The chunk that ends its segment. */
  ghost predicate Last(k: Kind) {
    k == Foot || k == Fence
  }

  ghost predicate ChunkOk(a: int, c: Chunk) {
    && a > 0 && a % 16 == 0 && c.size > 0 && c.size % 16 == 0 && c.prev >= 0
    && (c.kind == Live || c.kind == Record || c.kind == Free ==> c.size >= MIN_CHUNK_SIZE)
    && (c.kind == Foot ==> c.size == TOP_FOOT_SIZE)
    && (Last(c.kind) ==> c.prev == 0)
    && ClearOfState(a, c.size)
  }

  /** What chunk `c` tells the chunk after it about itself. */
  function PrevFor(c: Chunk): int {
    if c.kind == Free then c.size else 0
  }

  /** The chunk after `a` is where `a` ends, and the two agree about each other. */
  ghost predicate NextOk(ck: Chunks, a: int)
    requires a in ck
  {
    var n := a + ck[a].size;
    && n in ck
    && ck[n].prev == PrevFor(ck[a])
    && (ck[n].kind == Foot <==> ck[a].kind == Top)
    && (ck[n].kind == Fence <==> ck[a].kind == Record)
  }

  /** The free chunk before `a`, if `a` says there is one. */
  ghost predicate PrevOk(ck: Chunks, a: int)
    requires a in ck
  {
    var p := a - ck[a].prev;
    ck[a].prev > 0 ==> p in ck && ck[p].kind == Free && ck[p].size == ck[a].prev
  }

  ghost predicate Disjoint(ck: Chunks) {
    forall a, b | a in ck && b in ck && a != b :: a + ck[a].size <= b || b + ck[b].size <= a
  }

  ghost predicate Shape(ck: Chunks) {
    && (forall a | a in ck :: ChunkOk(a, ck[a]))
    && Disjoint(ck)
    && (forall a {:trigger NextOk(ck, a)} | a in ck && !Last(ck[a].kind) :: NextOk(ck, a))
    && (forall a {:trigger PrevOk(ck, a)} | a in ck :: PrevOk(ck, a))
  }

  /** No free chunk is followed by a free chunk or by the top. */
  ghost predicate Coalesced(ck: Chunks) {
    forall a | a in ck && (ck[a].kind == Free || ck[a].kind == Top) :: ck[a].prev == 0
  }

  // ----- Changes

  /** A live chunk becomes free, or a free one live. */
  function Rekind(ck: Chunks, a: int, k: Kind): Chunks
    requires a in ck && a + ck[a].size in ck
  {
    var n := a + ck[a].size;
    ck[a := ck[a].(kind := k)][n := ck[n].(prev := PrevFor(ck[a].(kind := k)))]
  }

  /** A live chunk is divided after `s` bytes. */
  function Cut(ck: Chunks, a: int, s: int): Chunks
    requires a in ck
  {
    ck[a := ck[a].(size := s)][a + s := Chunk(ck[a].size - s, ck[a].kind, 0)]
  }

  /** A live chunk absorbs the live chunk, or the top, that follows it. */
  function Join(ck: Chunks, a: int): Chunks
    requires a in ck && a + ck[a].size in ck
  {
    var n := a + ck[a].size;
    (ck - {n})[a := Chunk(ck[a].size + ck[n].size, ck[n].kind, ck[a].prev)]
  }

  /** The front of the top becomes a live chunk of size `s`. */
  function CutTop(ck: Chunks, a: int, s: int): Chunks
    requires a in ck
  {
    ck[a := Chunk(s, Live, ck[a].prev)][a + s := Chunk(ck[a].size - s, Top, 0)]
  }

  ghost predicate CanRekind(ck: Chunks, a: int, k: Kind) {
    a in ck && (ck[a].kind == Live || ck[a].kind == Free) && (k == Live || k == Free)
  }

  ghost predicate CanCut(ck: Chunks, a: int, s: int) {
    a in ck && ck[a].kind == Live && s % 16 == 0 && s >= MIN_CHUNK_SIZE && ck[a].size - s >= MIN_CHUNK_SIZE
  }

  ghost predicate CanJoin(ck: Chunks, a: int) {
    && a in ck && ck[a].kind == Live
    && a + ck[a].size in ck && (ck[a + ck[a].size].kind == Live || ck[a + ck[a].size].kind == Top)
  }

  ghost predicate CanCutTop(ck: Chunks, a: int, s: int) {
    a in ck && ck[a].kind == Top && s % 16 == 0 && MIN_CHUNK_SIZE <= s < ck[a].size
  }

  lemma NextIn(ck: Chunks, a: int)
    requires Shape(ck) && a in ck && !Last(ck[a].kind)
    ensures NextOk(ck, a) && ChunkOk(a, ck[a]) && a + ck[a].size in ck && a + ck[a].size != a
  {
    assert ChunkOk(a, ck[a]) && NextOk(ck, a);
  }

  lemma ChunkIn(ck: Chunks, a: int)
    requires Shape(ck) && a in ck
    ensures ChunkOk(a, ck[a]) && PrevOk(ck, a)
  {
    assert PrevOk(ck, a);
  }

  /** Only one chunk ends where a given chunk begins. */
  lemma OnePrev(ck: Chunks, a: int, b: int)
    requires Shape(ck) && a in ck && b in ck && a + ck[a].size == b + ck[b].size
    ensures a == b
  {
    ChunkIn(ck, a);
    ChunkIn(ck, b);
  }

  /** No chunk begins inside another. */
  lemma NotInside(ck: Chunks, a: int, x: int)
    requires Shape(ck) && a in ck && a < x < a + ck[a].size
    ensures x !in ck
  {
    if x in ck {
      ChunkIn(ck, x);
    }
  }

  lemma RekindDisjoint(ck: Chunks, a: int, k: Kind)
    requires Disjoint(ck) && a in ck && a + ck[a].size in ck
    ensures Disjoint(Rekind(ck, a, k))
  {
  }

  lemma RekindChunk(ck: Chunks, a: int, k: Kind, x: int)
    requires Shape(ck) && CanRekind(ck, a, k) && a + ck[a].size in ck && x in Rekind(ck, a, k)
    requires NextOk(ck, a) && ck[a].size > 0
    ensures ChunkOk(x, Rekind(ck, a, k)[x])
  {
    hide Shape, ClearOfState;
    ChunkIn(ck, x);
    ChunkIn(ck, a);
  }

  lemma RekindNext(ck: Chunks, a: int, k: Kind, x: int)
    requires Shape(ck) && CanRekind(ck, a, k) && a + ck[a].size in ck && x in ck && !Last(ck[x].kind)
    ensures NextOk(Rekind(ck, a, k), x)
  {
    hide Shape, ChunkOk;
    NextIn(ck, x);
    NextIn(ck, a);
    if x + ck[x].size == a + ck[a].size {
      OnePrev(ck, x, a);
    }
  }

  lemma RekindPrev(ck: Chunks, a: int, k: Kind, x: int)
    requires Shape(ck) && CanRekind(ck, a, k) && a + ck[a].size in ck && x in ck
    ensures PrevOk(Rekind(ck, a, k), x)
  {
    hide Shape, ChunkOk;
    ChunkIn(ck, x);
    NextIn(ck, a);
    if ck[x].prev > 0 && x - ck[x].prev == a {
      assert x == a + ck[a].size;
    }
  }

  lemma RekindShape(ck: Chunks, a: int, k: Kind)
    requires Shape(ck) && CanRekind(ck, a, k)
    ensures a + ck[a].size in ck && Shape(Rekind(ck, a, k))
  {
    hide ChunkOk, NextOk, PrevOk, Disjoint;
    NextIn(ck, a);
    var d := Rekind(ck, a, k);
    assert 0 < ck[a].size by { SizePositive(ck, a); }
    RekindDisjoint(ck, a, k);
    forall x | x in d ensures ChunkOk(x, d[x]) { RekindChunk(ck, a, k, x); }
    forall x | x in d && !Last(d[x].kind) ensures NextOk(d, x) { RekindNext(ck, a, k, x); }
    forall x | x in d ensures PrevOk(d, x) { RekindPrev(ck, a, k, x); }
  }

  lemma SizePositive(ck: Chunks, a: int)
    requires Shape(ck) && a in ck
    ensures ck[a].size > 0
  {
    ChunkIn(ck, a);
  }

  lemma CutDisjoint(ck: Chunks, a: int, s: int, k: Kind)
    requires Disjoint(ck) && a in ck && 0 < s < ck[a].size && (forall x | x in ck :: ck[x].size > 0)
    ensures a + s !in ck
    ensures Disjoint(ck[a := Chunk(s, Live, ck[a].prev)][a + s := Chunk(ck[a].size - s, k, 0)])
  {
  }

  lemma CutClear(a: int, size: int, s: int)
    requires 0 < s < size && ClearOfState(a, size)
    ensures ClearOfState(a, s) && ClearOfState(a + s, size - s)
  {
  }

  /** Cut and CutTop at once: `k` is the kind of the chunk divided and of its second part. */
  function CutAny(ck: Chunks, a: int, s: int): Chunks
    requires a in ck
  {
    ck[a := Chunk(s, Live, ck[a].prev)][a + s := Chunk(ck[a].size - s, ck[a].kind, 0)]
  }

  ghost predicate CanCutAny(ck: Chunks, a: int, s: int) {
    CanCut(ck, a, s) || CanCutTop(ck, a, s)
  }

  lemma CutChunk(ck: Chunks, a: int, s: int, x: int)
    requires Shape(ck) && CanCutAny(ck, a, s) && x in CutAny(ck, a, s)
    ensures ChunkOk(x, CutAny(ck, a, s)[x])
  {
    hide Shape, ClearOfState;
    ChunkIn(ck, a);
    CutClear(a, ck[a].size, s);
    if x != a && x != a + s {
      ChunkIn(ck, x);
    }
  }

  lemma CutNext(ck: Chunks, a: int, s: int, x: int)
    requires Shape(ck) && CanCutAny(ck, a, s) && a + s !in ck && x in CutAny(ck, a, s)
    requires !Last(CutAny(ck, a, s)[x].kind)
    ensures NextOk(CutAny(ck, a, s), x)
  {
    hide Shape, ChunkOk;
    NextIn(ck, a);
    SizePositive(ck, a);
    if x != a && x != a + s {
      NextIn(ck, x);
    }
  }

  lemma CutPrev(ck: Chunks, a: int, s: int, x: int)
    requires Shape(ck) && CanCutAny(ck, a, s) && a + s !in ck && x in CutAny(ck, a, s)
    ensures PrevOk(CutAny(ck, a, s), x)
  {
    hide Shape, ChunkOk;
    if x != a + s {
      ChunkIn(ck, x);
    }
  }

  lemma CutAnyShape(ck: Chunks, a: int, s: int)
    requires Shape(ck) && CanCutAny(ck, a, s)
    ensures a + s !in ck && Shape(CutAny(ck, a, s))
  {
    hide ChunkOk, NextOk, PrevOk, Disjoint;
    var d := CutAny(ck, a, s);
    forall x | x in ck ensures ck[x].size > 0 { SizePositive(ck, x); }
    CutDisjoint(ck, a, s, ck[a].kind);
    forall x | x in d ensures ChunkOk(x, d[x]) { CutChunk(ck, a, s, x); }
    forall x | x in d && !Last(d[x].kind) ensures NextOk(d, x) { CutNext(ck, a, s, x); }
    forall x | x in d ensures PrevOk(d, x) { CutPrev(ck, a, s, x); }
  }

  lemma CutShape(ck: Chunks, a: int, s: int)
    requires Shape(ck) && CanCut(ck, a, s)
    ensures a + s !in ck && Shape(Cut(ck, a, s))
  {
    hide Shape;
    CutAnyShape(ck, a, s);
    assert Cut(ck, a, s) == CutAny(ck, a, s);
  }

  lemma CutTopShape(ck: Chunks, a: int, s: int)
    requires Shape(ck) && CanCutTop(ck, a, s)
    ensures a + s !in ck && Shape(CutTop(ck, a, s))
  {
    hide Shape;
    CutAnyShape(ck, a, s);
    assert CutTop(ck, a, s) == CutAny(ck, a, s);
  }

  lemma JoinDisjoint(ck: Chunks, a: int)
    requires Disjoint(ck) && a in ck && a + ck[a].size in ck && (forall x | x in ck :: ck[x].size > 0)
    ensures Disjoint(Join(ck, a))
  {
  }

  lemma JoinClear(a: int, s: int, n: int)
    requires s > 0 && n > 0 && ClearOfState(a, s) && ClearOfState(a + s, n)
    ensures ClearOfState(a, s + n)
  {
  }

  lemma JoinChunk(ck: Chunks, a: int, x: int)
    requires Shape(ck) && CanJoin(ck, a) && x in Join(ck, a)
    ensures ChunkOk(x, Join(ck, a)[x])
  {
    hide Shape, ClearOfState;
    ChunkIn(ck, a);
    ChunkIn(ck, a + ck[a].size);
    JoinClear(a, ck[a].size, ck[a + ck[a].size].size);
    ChunkIn(ck, x);
  }

  lemma JoinedNext(ck: Chunks, a: int, x: int)
    requires Shape(ck) && CanJoin(ck, a) && x in Join(ck, a) && !Last(Join(ck, a)[x].kind)
    ensures NextOk(Join(ck, a), x)
  {
    hide Shape, ChunkOk;
    var n := a + ck[a].size;
    NextIn(ck, a);
    NextIn(ck, n);
    NextIn(ck, x);
    SizePositive(ck, a);
    SizePositive(ck, n);
    if x + ck[x].size == n {
      OnePrev(ck, x, a);
    }
  }

  lemma JoinPrev(ck: Chunks, a: int, x: int)
    requires Shape(ck) && CanJoin(ck, a) && x in Join(ck, a)
    ensures PrevOk(Join(ck, a), x)
  {
    hide Shape, ChunkOk;
    ChunkIn(ck, x);
  }

  lemma JoinShape(ck: Chunks, a: int)
    requires Shape(ck) && CanJoin(ck, a)
    ensures Shape(Join(ck, a))
  {
    hide ChunkOk, NextOk, PrevOk, Disjoint;
    var d := Join(ck, a);
    forall x | x in ck ensures ck[x].size > 0 { SizePositive(ck, x); }
    JoinDisjoint(ck, a);
    forall x | x in d ensures ChunkOk(x, d[x]) { JoinChunk(ck, a, x); }
    forall x | x in d && !Last(d[x].kind) ensures NextOk(d, x) { JoinedNext(ck, a, x); }
    forall x | x in d ensures PrevOk(d, x) { JoinPrev(ck, a, x); }
  }
}
