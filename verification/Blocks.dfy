/** What callers may rely on about their blocks, and what they may do with them. */
module Blocks {
  import opened Memory
  import opened Bits
  import NumberTheory
  import opened Bins
  import opened BinSteps
  import opened Layout
  import opened Segments
  import opened Tags
  import opened Moves
  import opened Invariant
  import opened Grants
  import opened Reallocs

  /** Live blocks are aligned, lie in the address space and are pairwise disjoint: the usable part of a
      block, up to and including the word that would be its foot, meets that of no other block. */
  lemma BlocksDisjoint(ck: Chunks, segs: seq<Segment>, a: int, b: int)
    requires LayoutOk(ck, segs) && Regions(segs) && a in LiveOf(ck) && b in LiveOf(ck) && a != b
    ensures (a + 16) % 16 == 0 && 0 < a && a + LiveOf(ck)[a] + 8 <= W64
    ensures a + LiveOf(ck)[a] + 8 <= b + 16 || b + LiveOf(ck)[b] + 8 <= a + 16
  {
    hide LayoutOk, Shape;
    OkShape(ck, segs);
    Apart2(ck, a, b);
    ChunkIn(ck, a);
    ChunkIn(ck, b);
    NextIn(ck, a);
    SizeBound(ck, segs, a);
    SizeBound(ck, segs, a + ck[a].size);
    ChunkIn(ck, a + ck[a].size);
  }

  /** The address of a word that a caller may write. */
  ghost predicate Owned(ck: Chunks, a: int, w: int) {
    a in ck && ck[a].kind == Live && PayloadWord(a, ck[a], w) && w % 8 == 0
  }

  lemma OwnedNotTag(ck: Chunks, a: int, w: int)
    requires Shape(ck) && Owned(ck, a, w)
    ensures !TagWord(ck, w)
  {
    hide Shape;
    TagNotPayload(ck, a, w);
  }

  lemma OwnedTags(m: Mem, ck: Chunks, a: int, w: int, v: int)
    requires Shape(ck) && Tagged(m, ck) && Owned(ck, a, w)
    ensures Tagged(m[w := v], ck)
  {
    hide Shape, TagWord, Owned;
    OwnedNotTag(ck, a, w);
    forall x | x in ck ensures TagOk(m[w := v], x, ck[x]) {
      assert TagOk(m, x, ck[x]);
      HeadIsTag(ck, x);
    }
  }

  lemma OwnedQuiet(m: Mem, ck: Chunks, sz: map<int, int>, a: int, w: int, v: int)
    requires Shape(ck) && FreeIn(ck, sz) && Owned(ck, a, w)
    ensures Quiet(m, m[w := v], sz)
  {
    hide Shape;
    PayloadNotInterior(ck, sz, a, w);
    forall x, y | x in sz && x + 16 <= y < x + sz[x] ensures Rd(m[w := v], y) == Rd(m, y) {
      assert !Interior(sz, x, w);
    }
  }

  /** Blocks other than the one written to keep their contents. */
  lemma OwnedOthers(m: Mem, ck: Chunks, a: int, w: int, v: int)
    requires Shape(ck) && Owned(ck, a, w)
    ensures BlocksKept(m, m[w := v], LiveOf(ck) - {a})
  {
    hide Shape;
    forall b, x | b in LiveOf(ck) - {a} && b + 16 <= x < b + (LiveOf(ck) - {a})[b] + 8
      ensures Rd(m[w := v], x) == Rd(m, x)
    {
      Apart2(ck, a, b);
      ChunkIn(ck, a);
      ChunkIn(ck, b);
    }
  }

  /** Nor is a record of a segment part of a block. */
  lemma OwnedList(m: Mem, ck: Chunks, segs: seq<Segment>, a: int, w: int, v: int)
    requires LayoutOk(ck, segs) && SegList(m, segs) && Owned(ck, a, w)
    ensures SegList(m[w := v], segs)
  {
    hide LayoutOk, Shape, Records, SegList;
    OkShape(ck, segs);
    LayoutRecords(ck, segs);
    FirstRecord(ck, segs);
    forall i, x | 1 <= i < |segs| && segs[i].rec <= x < segs[i].rec + 32 ensures Rd(m[w := v], x) == Rd(m, x) {
      RecordPayload(ck, segs, i, x);
      Apart2(ck, a, segs[i].rec - 16);
      ChunkIn(ck, a);
      ChunkIn(ck, segs[i].rec - 16);
    }
    NextIn(ck, a);
    ChunkIn(ck, a);
    ChunkIn(ck, a + ck[a].size);
    SegListFrame(m, m[w := v], segs);
  }

  lemma LayoutRecords(ck: Chunks, segs: seq<Segment>)
    requires LayoutOk(ck, segs)
    ensures Records(ck, segs)
  {
    hide Shape, Seats, Records;
  }

  /** A caller may write anything to any word of its block, the last one included, which is where the
      next chunk would look for a foot: the heap stays as it is, and so does every other block. */
  lemma UserWrite(m: Mem, smallmap: bv32, treemap: bv32, b: Bins, ck: Chunks, segs: seq<Segment>, least: int, a: int,
                  w: int, v: int)
    requires Owned(ck, a, w)
    requires Loose(m, smallmap, treemap, b, ck, segs, least)
    ensures Loose(m[w := v], smallmap, treemap, b, ck, segs, least) && BlocksKept(m, m[w := v], LiveOf(ck) - {a})
  {
    hide Loose, LayoutOk, Shape, Tagged, SegList, Regions, BinsReady, FreeIn, AboveLeast, Quiet, Records, Owned,
         BlocksKept, Held, LiveOf;
    LooseParts(m, smallmap, treemap, b, ck, segs, least);
    LooseBins(m, smallmap, treemap, b, ck, segs, least);
    OwnedTags(m, ck, a, w, v);
    OwnedQuiet(m, ck, b.sz, a, w, v);
    OwnedOthers(m, ck, a, w, v);
    OwnedList(m, ck, segs, a, w, v);
    HeldQuiet(m, m[w := v], smallmap, treemap, b, ck, ck, least);
    HeldParts(m[w := v], smallmap, treemap, b, ck, least);
    LooseIs(m[w := v], smallmap, treemap, b, ck, segs, least);
  }

  lemma LooseIs(m: Mem, smallmap: bv32, treemap: bv32, b: Bins, ck: Chunks, segs: seq<Segment>, least: int)
    requires LayoutOk(ck, segs) && Tagged(m, ck) && SegList(m, segs) && Regions(segs) && AboveLeast(ck, least)
    requires BinsReady(m, smallmap, treemap, b, least) && FreeIn(ck, b.sz)
    ensures Loose(m, smallmap, treemap, b, ck, segs, least)
  {
    hide LayoutOk, Tagged, SegList, Regions, BinsReady, FreeIn, AboveLeast;
  }

  lemma OwnedIs(ck: Chunks, a: int, w: int)
    requires a in ck && ck[a].kind == Live && a + 16 <= w < a + ck[a].size + 8 && w % 8 == 0
    ensures Owned(ck, a, w)
  {
  }

  // ----- Copying bytes

  /** The low `k` bytes of a word. */
  function LowBytes(w: int, k: nat): int {
    w % Pow2(8 * k)
  }

  /** The word `d` with its low `k` bytes taken from `s`. */
  function Overwritten(d: int, s: int, k: nat): int {
    d - LowBytes(d, k) + LowBytes(s, k)
  }

  lemma OverwrittenLow(d: int, s: int, k: nat)
    ensures LowBytes(Overwritten(d, s, k), k) == LowBytes(s, k)
    ensures Overwritten(d, s, k) - LowBytes(Overwritten(d, s, k), k) == d - LowBytes(d, k)
  {
    hide Pow2;
    WholePart(Pow2(8 * k), d, s);
  }

  lemma NoLowBytes(a: int, b: int)
    ensures LowBytes(a, 0) == LowBytes(b, 0)
  {
  }

  lemma WholePart(b: nat, d: int, s: int)
    requires b > 0
    ensures (d - d % b + s % b) % b == s % b
  {
    SumRest(b, d / b, s % b);
    assert d - d % b == b * (d / b);
  }

  lemma SumRest(b: nat, q: int, r: int)
    requires 0 <= r < b
    ensures (b * q + r) % b == r
  {
    var x := b * q + r;
    var y := x / b;
    assert x == b * y + x % b;
    assert b * (y - q) == r - x % b;
    NumberTheory.MultipleBounds(b, y - q);
  }

  /** The first `len` bytes at `dst` in `n` are those at `src` in `m`: all whole words, and the low bytes of
      the word in which the range ends. */
  ghost predicate Copied(m: Mem, src: int, n: Mem, dst: int, len: int) {
    && (forall i | 0 <= i && 8 * i + 8 <= len :: Rd(n, dst + 8 * i) == Rd(m, src + 8 * i))
    && (len > 0 ==> LowBytes(Rd(n, dst + 8 * (len / 8)), len % 8) == LowBytes(Rd(m, src + 8 * (len / 8)), len % 8))
  }

  /** The block `a`, whose payload starts at `dst`, has room for `len` bytes. */
  ghost predicate BlockRoom(ck: Chunks, a: int, dst: int, len: int) {
    a in ck && ck[a].kind == Live && dst == a + 16 && len <= ck[a].size - 8 && ck[a].size % 8 == 0 && a % 8 == 0
  }

  /** The whole words were copied first, in `m1`, and then the rest. */
  lemma CopiedAll(m: Mem, src: int, m1: Mem, n: Mem, dst: int, len: int)
    requires len >= 0 && forall j | 0 <= j < len / 8 :: Rd(m1, dst + 8 * j) == Rd(m, src + 8 * j)
    requires forall j | 0 <= j < len / 8 :: Rd(n, dst + 8 * j) == Rd(m1, dst + 8 * j)
    requires LowBytes(Rd(n, dst + 8 * (len / 8)), len % 8) == LowBytes(Rd(m, src + 8 * (len / 8)), len % 8)
    ensures Copied(m, src, n, dst, len)
  {
    hide LowBytes;
  }

  /** Copied words that survive on both sides are still copied. */
  lemma CopiedStill(m: Mem, m1: Mem, m2: Mem, n: Mem, ck: map<int, int>, d: map<int, int>, p: int, q: int, len: int)
    requires Copied(m1, p + 16, m2, q + 16, len) && BlocksKept(m, m1, ck) && BlocksKept(m2, n, d)
    requires p in ck && q in d && len <= ck[p] - 8 && len <= d[q] - 8
    ensures Copied(m, p + 16, n, q + 16, len)
  {
    hide BlocksKept, LowBytes;
    forall i | 0 <= i && 8 * i + 8 <= len ensures Rd(n, q + 16 + 8 * i) == Rd(m, p + 16 + 8 * i) {
      WordKept(m, m1, ck, p, p + 16 + 8 * i);
      WordKept(m2, n, d, q, q + 16 + 8 * i);
    }
    if len > 0 && len % 8 > 0 {
      WordKept(m, m1, ck, p, p + 16 + 8 * (len / 8));
      WordKept(m2, n, d, q, q + 16 + 8 * (len / 8));
    } else if len > 0 {
      NoLowBytes(Rd(n, q + 16 + 8 * (len / 8)), Rd(m, p + 16 + 8 * (len / 8)));
    }
  }

  // ----- realloc as callers see it

  /** The block at `old` has become the block at `r`, of at least `bytes` bytes, with the same contents as
      far as both reach; no other block was touched. */
  ghost predicate Reallocated(m: Mem, ck: Chunks, n: Mem, d: Chunks, from: int, r: int, bytes: int) {
    var p, q := from - 16, r - 16;
    && p in ck && q in d && d[q].kind == Live && RequestSize(bytes) <= d[q].size < RequestSize(bytes) + MIN_CHUNK_SIZE
    && q !in LiveOf(ck) - {p} && LiveOf(d) == (LiveOf(ck) - {p})[q := d[q].size] && BlocksKept(m, n, LiveOf(ck) - {p})
    && Copied(m, from, n, r, Min(ck[p].size - 8, bytes))
  }

  lemma RequestRoom(bytes: int)
    requires bytes >= 0
    ensures RequestSize(bytes) >= bytes + 8 && RequestSize(bytes) % 16 == 0 && RequestSize(bytes) >= MIN_CHUNK_SIZE
    ensures bytes < MAX_REQUEST ==> RequestSize(bytes) < W64 && MallocSize(bytes) == RequestSize(bytes)
  {
  }

  lemma CopiedSelf(m: Mem, src: int, len: int)
    ensures Copied(m, src, m, src, len)
  {
  }

  lemma ResizedInPlace(m: Mem, ck: Chunks, n: Mem, d: Chunks, p: int, bytes: int)
    requires Resized(m, ck, n, d, p, RequestSize(bytes)) && bytes >= 0
    ensures Reallocated(m, ck, n, d, p + 16, p + 16, bytes)
  {
    hide LiveOf, RequestSize, Copied;
    RequestRoom(bytes);
    InLive(ck);
    InLive(d);
    LiveHas(ck, p);
    assert LiveOf(d) == (LiveOf(ck) - {p})[p := d[p].size];
    var live := LiveOf(ck)[p := Min(ck[p].size, d[p].size)];
    PartsKept(m, n, live, LiveOf(ck) - {p});
    CopiedSelf(m, p + 16, Min(ck[p].size - 8, bytes));
    CopiedStill(m, m, m, n, LiveOf(ck), live, p, p, Min(ck[p].size - 8, bytes)) by { NothingChanged(m, LiveOf(ck)); }
  }

  lemma WordKept(m: Mem, n: Mem, live: map<int, int>, a: int, w: int)
    requires BlocksKept(m, n, live) && a in live && a + 16 <= w < a + live[a] + 8
    ensures Rd(n, w) == Rd(m, w)
  {
  }

  /** The block moved: `m1` is memory once the new block was granted, `m2` once the contents were copied. */
  lemma BlockMoved(m: Mem, ck: Chunks, m1: Mem, c: Chunks, m2: Mem, n: Mem, d: Chunks, from: int, r: int, bytes: int,
                   k: int)
    requires Granted(m, ck, m1, c, r, RequestSize(bytes)) && bytes >= 0 && from - 16 in ck && ck[from - 16].kind == Live
    requires BlocksKept(m1, m2, LiveOf(c) - {r - 16}) && LiveOf(d) == LiveOf(c) - {from - 16}
    requires BlocksKept(m2, n, LiveOf(d))
    requires k == Min(ck[from - 16].size - 8, bytes) && Copied(m1, from, m2, r, k)
    ensures Reallocated(m, ck, n, d, from, r, bytes)
  {
    hide LiveOf, RequestSize, BlocksKept, Copied;
    RequestRoom(bytes);
    var p, q := from - 16, r - 16;
    InLive(ck);
    InLive(c);
    InLive(d);
    LiveHas(ck, p);
    LiveHas(c, q);
    assert LiveOf(d) == (LiveOf(ck) - {p})[q := c[q].size];
    PartsKept(m, m1, LiveOf(ck), LiveOf(ck) - {p});
    PartsKept(m1, m2, LiveOf(c) - {q}, LiveOf(ck) - {p});
    PartsKept(m2, n, LiveOf(d), LiveOf(ck) - {p});
    BlocksTwice(m, m1, m2, LiveOf(ck) - {p});
    BlocksTwice(m, m2, n, LiveOf(ck) - {p});
    CopiedStill(m, m1, m2, n, LiveOf(ck), LiveOf(d), p, q, k);
  }

  /** Where the copy goes from and to. */
  lemma CopyApart(m: Mem, smallmap: bv32, treemap: bv32, b: Bins, ck: Chunks, segs: seq<Segment>, least: int, p: int,
                  q: int, k: int)
    requires p in ck && q in ck && p != q && ck[p].kind == Live && ck[q].kind == Live && k <= ck[p].size - 8
    requires k <= ck[q].size - 8
    requires Loose(m, smallmap, treemap, b, ck, segs, least)
    ensures (p + 16) + k + 8 <= q + 16 || (q + 16) + k + 8 <= p + 16
    ensures ChunkSize(Rd(m, p + HEAD)) == ck[p].size && ck[q].size % 8 == 0 && q % 8 == 0
    ensures ck[p].size >= MIN_CHUNK_SIZE
  {
    hide Loose, LayoutOk, Shape, Records, Tagged, SegList, Regions, BinsReady, FreeIn, AboveLeast, ChunkOk;
    LooseParts(m, smallmap, treemap, b, ck, segs, least);
    Apart2(ck, p, q);
    BlockEven(ck, p);
    BlockEven(ck, q);
    ReadChunk(m, ck, p);
  }

  lemma BlockEven(ck: Chunks, p: int)
    requires Shape(ck) && p in ck && ck[p].kind == Live
    ensures p % 8 == 0 && ck[p].size % 8 == 0 && ck[p].size >= MIN_CHUNK_SIZE
  {
    hide Shape;
    ChunkIn(ck, p);
    Eighths(p);
    Eighths(ck[p].size);
  }

  lemma Eighths(x: int)
    requires x % 16 == 0
    ensures x % 8 == 0
  {
  }

  lemma GrantedBlocks(m: Mem, ck: Chunks, n: Mem, d: Chunks, r: int, nb: int, p: int)
    requires Granted(m, ck, n, d, r, nb) && p in ck && ck[p].kind == Live
    ensures p in d && d[p].kind == Live && d[p].size == ck[p].size && p != r - 16 && r - 16 in d
    ensures d[r - 16].kind == Live && d[r - 16].size >= nb
  {
    hide BlocksKept, LiveOf;
    LiveHas(ck, p);
    InLive(ck);
    InLive(d);
  }
}
