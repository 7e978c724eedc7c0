/** Boundary tags: how the head and prev_foot words of memory spell out a layout. */
module Tags {
  import opened Memory
  import opened Bins
  import opened Layout

  // ----- Head words

  function PrevInUse(w: int): bool {
    w % 2 == 1
  }

  function CurInUse(w: int): bool {
    (w / 2) % 2 == 1
  }

  /** is_inuse: anything but a free chunk whose predecessor is in use. */
  function IsInUse(w: int): bool {
    w % 4 != 1
  }

  function OrPinuse(w: int): int {
    if PrevInUse(w) then w else w + PINUSE_BIT
  }

  function ClearPinuse(w: int): int {
    w - w % 2
  }

  function PinuseOf(c: Chunk): int {
    if c.prev == 0 then PINUSE_BIT else 0
  }

  function HeadWord(c: Chunk): int {
    match c.kind
    case Live => c.size + CINUSE_BIT + PinuseOf(c)
    case Record => c.size + CINUSE_BIT + PinuseOf(c)
    case Free => c.size + PinuseOf(c)
    case Top => c.size + PinuseOf(c)
    case Foot => TOP_FOOT_SIZE
    case Fence => FENCEPOST_HEAD
  }

  lemma Mod8(q: int, f: int)
    requires 0 <= f < 8
    ensures (8 * q + f) % 8 == f
  {
  }

  lemma Mod4(q: int, f: int)
    requires 0 <= f < 4
    ensures (4 * q + f) % 4 == f
  {
  }

  lemma Mod2(q: int, f: int)
    requires 0 <= f < 2
    ensures (2 * q + f) % 2 == f && (2 * q + f) / 2 == q
  {
  }

  lemma FlagBits(s: int, f: int)
    requires s % 16 == 0 && 0 <= f < 4
    ensures (s + f) % 8 == f && (s + f) % 4 == f && (s + f) % 2 == f % 2
    ensures ((s + f) / 2) % 2 == (f / 2) % 2
  {
    var k := s / 16;
    Mod8(2 * k, f);
    Mod4(4 * k, f);
    Mod2(8 * k + f / 2, f % 2);
    Mod2(4 * k, f / 2);
  }

  /** The flag bits of a head word. */
  function Flags(c: Chunk): int {
    match c.kind
    case Live => CINUSE_BIT + PinuseOf(c)
    case Record => CINUSE_BIT + PinuseOf(c)
    case Free => PinuseOf(c)
    case Top => PinuseOf(c)
    case Foot => 0
    case Fence => CINUSE_BIT + PINUSE_BIT
  }

  lemma HeadBits(a: int, c: Chunk)
    requires ChunkOk(a, c)
    ensures var w := HeadWord(c);
      && (c.kind != Fence ==> ChunkSize(w) == c.size)
      && (CurInUse(w) <==> c.kind == Live || c.kind == Record || c.kind == Fence)
      && (c.kind != Foot ==> (PrevInUse(w) <==> c.prev == 0))
      && (IsInUse(w) <==> CurInUse(w) || !PrevInUse(w))
  {
    if c.kind != Fence {
      FlagBits(c.size, Flags(c));
      assert HeadWord(c) == c.size + Flags(c);
    }
  }

  /** Setting and clearing the pinuse bit of a chunk that can carry one. */
  lemma PinuseBits(a: int, c: Chunk, q: int)
    requires ChunkOk(a, c) && !Last(c.kind) && q > 0
    ensures OrPinuse(HeadWord(c)) == HeadWord(c.(prev := 0))
    ensures ClearPinuse(HeadWord(c)) == HeadWord(c.(prev := q))
  {
    FlagBits(c.size, Flags(c));
    assert HeadWord(c) == c.size + Flags(c);
  }

  // ----- Tagged memory

  ghost predicate TagOk(m: Mem, a: int, c: Chunk) {
    Rd(m, a + HEAD) == HeadWord(c) && (c.prev > 0 ==> Rd(m, a) == c.prev)
  }

  ghost predicate Tagged(m: Mem, ck: Chunks) {
    forall a | a in ck :: TagOk(m, a, ck[a])
  }

  /** `w` is a head, or the foot of a free chunk, in layout `ck`. */
  ghost predicate TagWord(ck: Chunks, w: int) {
    w - HEAD in ck || (w in ck && ck[w].prev > 0)
  }

  ghost predicate OnlyTags(m: Mem, n: Mem, ck: Chunks) {
    forall w {:trigger Rd(n, w)} :: !TagWord(ck, w) ==> Rd(n, w) == Rd(m, w)
  }

  /** `w` is a word of the payload of chunk `a`: from its third word up to and including the word that
      would be its foot. */
  ghost predicate PayloadWord(a: int, c: Chunk, w: int) {
    a + 16 <= w < a + c.size + 8
  }

  ghost predicate InUse(k: Kind) {
    k == Live || k == Record
  }

  ghost predicate PayloadsKept(m: Mem, n: Mem, ck: Chunks) {
    forall a, w {:trigger a in ck, Rd(n, w)} :: a in ck && InUse(ck[a].kind) && PayloadWord(a, ck[a], w) ==> Rd(n, w) == Rd(m, w)
  }

  // ----- Link writes

  /** `sz` holds free chunks of the layout. */
  ghost predicate FreeIn(ck: Chunks, sz: map<int, int>) {
    forall x | x in sz :: x in ck && ck[x].kind == Free && ck[x].size == sz[x]
  }

  lemma TagNotInterior(ck: Chunks, sz: map<int, int>, w: int)
    requires Shape(ck) && FreeIn(ck, sz) && TagWord(ck, w)
    ensures !BinArea(w) && forall x :: !Interior(sz, x, w)
  {
    hide Shape;
    forall x | Interior(sz, x, w) ensures false {
      ChunkIn(ck, x);
      var e := if w - HEAD in ck then w - HEAD else w;
      ChunkIn(ck, e);
      Apart2(ck, e, x);
    }
    var e := if w - HEAD in ck then w - HEAD else w;
    ChunkIn(ck, e);
  }

  lemma Apart2(ck: Chunks, a: int, b: int)
    requires Shape(ck) && a in ck && b in ck
    ensures a == b || a + ck[a].size <= b || b + ck[b].size <= a
  {
  }

  lemma HeadIsTag(ck: Chunks, a: int)
    requires a in ck
    ensures TagWord(ck, a + HEAD) && (ck[a].prev > 0 ==> TagWord(ck, a))
  {
  }

  lemma WithinTags(m: Mem, n: Mem, ck: Chunks, sz: map<int, int>)
    requires Shape(ck) && FreeIn(ck, sz) && Within(m, n, sz) && Tagged(m, ck)
    ensures Tagged(n, ck)
  {
    hide Shape, TagWord, Interior, BinArea;
    forall a | a in ck ensures TagOk(n, a, ck[a]) {
      assert TagOk(m, a, ck[a]);
      HeadIsTag(ck, a);
      TagNotInterior(ck, sz, a + HEAD);
      if ck[a].prev > 0 {
        TagNotInterior(ck, sz, a);
      }
    }
  }

  lemma PayloadNotInterior(ck: Chunks, sz: map<int, int>, a: int, w: int)
    requires Shape(ck) && FreeIn(ck, sz) && a in ck && InUse(ck[a].kind) && PayloadWord(a, ck[a], w)
    ensures !BinArea(w) && forall x :: !Interior(sz, x, w)
  {
    hide Shape;
    ChunkIn(ck, a);
    forall x | Interior(sz, x, w) ensures false {
      Apart2(ck, a, x);
    }
    NextIn(ck, a);
    ChunkIn(ck, a + ck[a].size);
    assert ClearOfState(a, ck[a].size) && ClearOfState(a + ck[a].size, ck[a + ck[a].size].size);
  }

  lemma WithinPayloads(m: Mem, n: Mem, ck: Chunks, sz: map<int, int>)
    requires Shape(ck) && FreeIn(ck, sz) && Within(m, n, sz)
    ensures PayloadsKept(m, n, ck)
  {
    hide Shape, Interior, BinArea, PayloadWord, InUse;
    forall a, w | a in ck && InUse(ck[a].kind) && PayloadWord(a, ck[a], w) ensures Rd(n, w) == Rd(m, w) {
      PayloadNotInterior(ck, sz, a, w);
    }
  }

  // ----- Tag writes

  lemma TagsQuiet(m: Mem, n: Mem, ck: Chunks, sz: map<int, int>)
    requires Shape(ck) && FreeIn(ck, sz) && OnlyTags(m, n, ck)
    ensures Quiet(m, n, sz)
  {
    hide Shape, TagWord, BinArea, FreeIn;
    forall w | BinArea(w) ensures Rd(n, w) == Rd(m, w) {
      if TagWord(ck, w) { TagNotInterior(ck, sz, w); }
    }
    forall x, w | x in sz && x + 16 <= w < x + sz[x] ensures Rd(n, w) == Rd(m, w) {
      if TagWord(ck, w) { TagNotInterior(ck, sz, w); assert Interior(sz, x, w); }
    }
  }

  lemma TagNotPayload(ck: Chunks, a: int, w: int)
    requires Shape(ck) && a in ck && InUse(ck[a].kind) && PayloadWord(a, ck[a], w)
    ensures !TagWord(ck, w)
  {
    hide Shape;
    if w - HEAD in ck {
      Apart2(ck, a, w - HEAD);
      ChunkIn(ck, w - HEAD);
    }
    if w in ck && ck[w].prev > 0 {
      ChunkIn(ck, w);
      ChunkIn(ck, a);
      Apart2(ck, a, w);
      OnePrev(ck, a, w - ck[w].prev);
    }
  }

  lemma TagsPayloads(m: Mem, n: Mem, ck: Chunks)
    requires Shape(ck) && OnlyTags(m, n, ck)
    ensures PayloadsKept(m, n, ck)
  {
    hide Shape, TagWord, PayloadWord, InUse;
    forall a, w | a in ck && InUse(ck[a].kind) && PayloadWord(a, ck[a], w) ensures Rd(n, w) == Rd(m, w) {
      TagNotPayload(ck, a, w);
    }
  }
}
