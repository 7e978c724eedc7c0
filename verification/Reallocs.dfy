/** Blocks that change their size in place. */
module Reallocs {
  import opened Memory
  import opened Bins
  import opened Layout
  import opened Segments
  import opened Tags
  import opened Moves
  import opened Retags
  import opened Invariant
  import opened Grants
  import opened Frees
  import opened BinSteps

  /** The live chunk `p` takes in the front of the top. */
  ghost function GrowTop(ck: Chunks, p: int, nb: int): Chunks {
    if p in ck && p + ck[p].size in ck && p in Join(ck, p) then CutTop(Join(ck, p), p, nb) else ck
  }

  // ----- Cutting a block in two

  lemma CutFacts(ck: Chunks, p: int, s: int)
    requires Coalesced(ck) && CanCut(ck, p, s) && p + s !in ck
    ensures var d, r := Cut(ck, p, s), p + s;
      && p in d && d[p] == Chunk(s, Live, ck[p].prev) && r in d && d[r] == Chunk(ck[p].size - s, Live, 0)
      && (forall x | x in ck && x != p :: x in d && d[x] == ck[x]) && (forall x | x in d && x != p && x != r :: x in ck)
      && Coalesced(d) && FreeOf(d) == FreeOf(ck) && LiveOf(d) == LiveOf(ck)[p := s][r := ck[p].size - s]
      && r !in LiveOf(ck)
  {
  }

  /** set_inuse of both parts. */
  function SetBoth(m: Mem, p: int, s: int, rest: int): Mem {
    SetInuse(SetInuse(m, p, s), p + s, rest)
  }

  lemma LiveHead(c: Chunk)
    requires c.kind == Live && c.prev >= 0 && c.size % 16 == 0
    ensures HeadWord(c) % 2 == (if c.prev == 0 then 1 else 0)
    ensures HeadWord(c) == c.size + CINUSE_BIT + (if c.prev == 0 then 1 else 0)
  {
    FlagBits(c.size, Flags(c));
  }

  /** The words that set_inuse of both parts leaves. */
  lemma BothWords(m: Mem, p: int, s: int, rest: int)
    requires s >= 32 && rest >= 32 && s % 16 == 0
    ensures var n, r, e := SetBoth(m, p, s, rest), p + s, p + s + rest;
      && Rd(n, p + HEAD) == Rd(m, p + HEAD) % 2 + s + CINUSE_BIT && Rd(n, r + HEAD) == rest + PINUSE_BIT + CINUSE_BIT
      && Rd(n, e + HEAD) == OrPinuse(Rd(m, e + HEAD))
      && forall w {:trigger Rd(n, w)} :: w != p + HEAD && w != r + HEAD && w != e + HEAD ==> Rd(n, w) == Rd(m, w)
  {
    OrOdd(Rd(m, p + s + HEAD));
  }

  lemma OrOdd(w: int)
    ensures OrPinuse(w) % 2 == 1 && OrPinuse(OrPinuse(w)) == OrPinuse(w)
  {
  }

  lemma EndHead(m: Mem, ck: Chunks, p: int)
    requires Shape(ck) && Tagged(m, ck) && p in ck && ck[p].kind == Live
    ensures p + ck[p].size in ck
    ensures var e := p + ck[p].size; ck[e].prev == 0 && OrPinuse(Rd(m, e + HEAD)) == HeadWord(ck[e])
  {
    hide Shape, HeadWord;
    NextIn(ck, p);
    var e := p + ck[p].size;
    ChunkIn(ck, e);
    assert TagOk(m, e, ck[e]);
    PinuseBits(e, ck[e], 1);
  }

  lemma CutTags(m: Mem, ck: Chunks, p: int, s: int)
    requires Shape(ck) && Coalesced(ck) && Tagged(m, ck) && CanCut(ck, p, s) && p + s !in ck && Shape(Cut(ck, p, s))
    ensures var n, d := SetBoth(m, p, s, ck[p].size - s), Cut(ck, p, s); Tagged(n, d) && OnlyTags(m, n, d)
  {
    hide Shape, HeadWord, SetBoth, Coalesced;
    var rest := ck[p].size - s;
    var n, d, r, e := SetBoth(m, p, s, rest), Cut(ck, p, s), p + s, p + ck[p].size;
    CutFacts(ck, p, s);
    BothWords(m, p, s, rest);
    EndHead(m, ck, p);
    ChunkIn(ck, p);
    ChunkIn(ck, e);
    LiveHead(ck[p]);
    LiveHead(d[p]);
    LiveHead(d[r]);
    assert TagOk(m, p, ck[p]) && TagOk(m, e, ck[e]);
    Retag(m, n, ck, d, {p, r, e});
  }

  // ----- Taking in the free chunk after a block

  /** The chunk after the live chunk `p` is free. */
  ghost predicate CanGrow(ck: Chunks, p: int) {
    p in ck && ck[p].kind == Live && p + ck[p].size in ck && ck[p + ck[p].size].kind == Free
  }

  ghost predicate Grown(ck: Chunks, d: Chunks, p: int)
  {
    && CanGrow(ck, p)
    && var n := p + ck[p].size;
      var e := n + ck[n].size;
      && e in ck && p in d && d[p] == Chunk(e - p, Live, ck[p].prev)
      && e in d && d[e] == ck[e].(prev := 0) && ck[e].prev > 0 && (ck[e].kind == Live || ck[e].kind == Record)
      && Coalesced(d) && FreeOf(d) == FreeOf(ck) - {n} && LiveOf(d) == LiveOf(ck)[p := e - p]
      && (forall x | x in d && x != p && x != e :: x in ck && d[x] == ck[x]) && (forall x | x in ck && x != n :: x in d)
  }

  lemma GrowFacts(ck: Chunks, segs: seq<Segment>, p: int)
    requires LayoutOk(ck, segs) && Coalesced(ck) && CanGrow(ck, p)
    ensures Grown(ck, JoinNext(ck, p), p) && LayoutOk(JoinNext(ck, p), segs)
  {
    hide LayoutOk, Shape, Coalesced;
    OkShape(ck, segs);
    JoinNextOk(ck, segs, p);
    var n := p + ck[p].size;
    NextIn(ck, n);
    SizePositive(ck, n);
    SizePositive(ck, p);
    var e := n + ck[n].size;
    AfterFree(ck, n);
    GrowKinds(ck, p);
  }

  lemma AfterFree(ck: Chunks, n: int)
    requires Shape(ck) && Coalesced(ck) && n in ck && ck[n].kind == Free
    ensures n + ck[n].size in ck
    ensures var e := n + ck[n].size;
      (ck[e].kind == Live || ck[e].kind == Record) && ck[e].prev == ck[n].size && ck[n].size > 0
  {
    hide Shape;
    NextIn(ck, n);
    SizePositive(ck, n);
  }

  lemma GrowKinds(ck: Chunks, p: int)
    requires CanGrow(ck, p) && Coalesced(ck)
    requires var n := p + ck[p].size;
      var e := n + ck[n].size; n != p && e != n && e != p && e in ck && (ck[e].kind == Live || ck[e].kind == Record)
    ensures var n, d := p + ck[p].size, JoinNext(ck, p);
      Coalesced(d) && FreeOf(d) == FreeOf(ck) - {n} && LiveOf(d) == LiveOf(ck)[p := ck[p].size + ck[n].size]
  {
  }

  lemma GrowTags(m: Mem, ck: Chunks, d: Chunks, p: int, s: int)
    requires Shape(ck) && Shape(d) && Tagged(m, ck) && Grown(ck, d, p) && s == d[p].size
    ensures var n := SetInuse(m, p, s); Tagged(n, d) && OnlyTags(m, n, d)
  {
    hide Shape, HeadWord, Coalesced, FreeOf, LiveOf;
    var e := p + s;
    ChunkIn(ck, p);
    ChunkIn(ck, e);
    ChunkIn(d, p);
    LiveHead(ck[p]);
    LiveHead(d[p]);
    assert TagOk(m, p, ck[p]) && TagOk(m, e, ck[e]);
    PinuseBits(e, ck[e], 1);
    Retag(m, SetInuse(m, p, s), ck, d, {p, e});
  }

  // ----- Taking in the front of the top

  ghost predicate CanGrowTop(ck: Chunks, p: int, nb: int) {
    && p in ck && ck[p].kind == Live && p + ck[p].size in ck && ck[p + ck[p].size].kind == Top
    && nb % 16 == 0 && ck[p].size < nb < ck[p].size + ck[p + ck[p].size].size && nb >= MIN_CHUNK_SIZE
  }

  ghost predicate TopGrown(ck: Chunks, d: Chunks, p: int, nb: int) {
    && CanGrowTop(ck, p, nb)
    && var n, r := p + ck[p].size, p + nb;
      && p in d && d[p] == Chunk(nb, Live, ck[p].prev) && r in d && d[r] == Chunk(ck[p].size + ck[n].size - nb, Top, 0)
      && r !in ck
      && (forall x | x in d && x != p && x != r :: x in ck && d[x] == ck[x]) && (forall x | x in ck && x != n :: x in d)
      && Coalesced(d) && FreeOf(d) == FreeOf(ck) && LiveOf(d) == LiveOf(ck)[p := nb]
  }

  lemma TopGrowFacts(ck: Chunks, segs: seq<Segment>, p: int, nb: int)
    requires LayoutOk(ck, segs) && Coalesced(ck) && CanGrowTop(ck, p, nb)
    ensures TopGrown(ck, GrowTop(ck, p, nb), p, nb) && LayoutOk(GrowTop(ck, p, nb), segs)
  {
    hide LayoutOk, Shape, Coalesced, FreeOf, LiveOf;
    OkShape(ck, segs);
    var n, j := p + ck[p].size, Join(ck, p);
    SizePositive(ck, p);
    SizePositive(ck, n);
    JoinOk(ck, segs, p);
    CutTopOk(j, segs, p, nb);
    NotInside(ck, n, p + nb);
    TopGrowKinds(ck, p, nb);
  }

  lemma TopGrowKinds(ck: Chunks, p: int, nb: int)
    requires CanGrowTop(ck, p, nb) && Coalesced(ck) && p + nb !in ck && ck[p].size > 0
    ensures var d := GrowTop(ck, p, nb); Coalesced(d) && FreeOf(d) == FreeOf(ck) && LiveOf(d) == LiveOf(ck)[p := nb]
  {
  }

  lemma TopGrowTags(m: Mem, ck: Chunks, d: Chunks, p: int, nb: int, s: int)
    requires Shape(ck) && Shape(d) && Tagged(m, ck) && TopGrown(ck, d, p, nb) && s == d[p + nb].size
    ensures var n := SetInuse(m, p, nb)[p + nb + HEAD := s + PINUSE_BIT]; Tagged(n, d) && OnlyTags(m, n, d)
  {
    hide Shape, HeadWord, Coalesced, FreeOf, LiveOf;
    ChunkIn(ck, p);
    ChunkIn(d, p);
    LiveHead(ck[p]);
    LiveHead(d[p]);
    Heads(s, 0);
    assert TagOk(m, p, ck[p]);
    Retag(m, SetInuse(m, p, nb)[p + nb + HEAD := s + PINUSE_BIT], ck, d, {p, p + nb});
  }

  // ----- Whole steps

  lemma CutKeeps(ck: Chunks, d: Chunks, p: int, s: int, sz: map<int, int>, least: int, segs: seq<Segment>, dv: int,
                 dvsize: int, top: int, topsize: int)
    requires CanCut(ck, p, s) && p + s !in ck && d == Cut(ck, p, s) && FreeIn(ck, sz) && AboveLeast(ck, least)
    requires segs != []
    requires Settled(sz, ck, segs, dv, dvsize, top, topsize) && Coalesced(d) && FreeOf(d) == FreeOf(ck)
    ensures FreeIn(d, sz) && AboveLeast(d, least) && Settled(sz, d, segs, dv, dvsize, top, topsize)
  {
    hide Coalesced, FreeOf;
  }

  /** `d` is `ck` with the live chunk `p` cut after `s` bytes. */
  ghost predicate CutInto(ck: Chunks, d: Chunks, p: int, s: int) {
    && p in ck && d == Cut(ck, p, s)
    && var r := p + s;
      && p in d && d[p] == Chunk(s, Live, ck[p].prev) && r in d && d[r] == Chunk(ck[p].size - s, Live, 0)
      && LiveOf(d) == LiveOf(ck)[p := s][r := ck[p].size - s] && r !in LiveOf(ck) && r != p && r in LiveOf(d)
  }

  lemma CutParts(ck: Chunks, d: Chunks, p: int, s: int)
    requires CutInto(ck, d, p, s)
    ensures p in ck && p in d && d[p] == Chunk(s, Live, ck[p].prev) && p + s in d
    ensures d[p + s] == Chunk(ck[p].size - s, Live, 0)
  {
    hide LiveOf;
  }

  lemma CutStep(m: Mem, smallmap: bv32, treemap: bv32, b: Bins, ck: Chunks, d: Chunks, segs: seq<Segment>, least: int,
                dv: int, dvsize: int, top: int, topsize: int, p: int, s: int, rest: int)
    requires CanCut(ck, p, s) && d == Cut(ck, p, s) && rest == ck[p].size - s
    requires Loose(m, smallmap, treemap, b, ck, segs, least) && Settled(b.sz, ck, segs, dv, dvsize, top, topsize)
    ensures var n := SetBoth(m, p, s, rest);
      && Loose(n, smallmap, treemap, b, d, segs, least) && Settled(b.sz, d, segs, dv, dvsize, top, topsize)
      && PayloadsKept(m, n, d)
    ensures CutInto(ck, d, p, s)
  {
    hide Loose, LayoutOk, Shape, Tagged, SegList, Regions, BinsReady, OnlyTags, FreeIn, AboveLeast, Settled, Coalesced,
         FreeOf, LiveOf, SetBoth, PayloadsKept, Cut;
    LooseParts(m, smallmap, treemap, b, ck, segs, least);
    CutOk(ck, segs, p, s);
    OkShape(d, segs);
    SettledCoalesced(b.sz, ck, segs, dv, dvsize, top, topsize);
    CutFacts(ck, p, s);
    CutTags(m, ck, p, s);
    NotNoSegments(ck, segs, p);
    CutKeeps(ck, d, p, s, b.sz, least, segs, dv, dvsize, top, topsize);
    TagStep(m, SetBoth(m, p, s, rest), smallmap, treemap, b, ck, d, segs, least);
    LiveHas(d, p + s);
  }

  lemma LiveHas(ck: Chunks, p: int)
    requires p in ck && ck[p].kind == Live
    ensures p in LiveOf(ck)
  {
  }

  lemma NotNoSegments(ck: Chunks, segs: seq<Segment>, p: int)
    requires LayoutOk(ck, segs) && p in ck
    ensures segs != []
  {
    hide Shape, Records;
    var i := SeatOf(ck, segs, p);
  }

  lemma SettledCoalesced(sz: map<int, int>, ck: Chunks, segs: seq<Segment>, dv: int, dvsize: int, top: int,
                         topsize: int)
    requires Settled(sz, ck, segs, dv, dvsize, top, topsize)
    ensures Coalesced(ck)
  {
    hide Coalesced;
  }

  lemma GrowKeeps(ck: Chunks, d: Chunks, p: int, sz0: map<int, int>, sz: map<int, int>, least: int, segs: seq<Segment>,
                  dv: int, dvsize: int, top: int, topsize: int, dv': int, dvsize': int)
    requires Grown(ck, d, p) && FreeIn(ck, sz) && AboveLeast(ck, least) && segs != [] && 0 !in ck && p != 0
    requires Settled(sz0, ck, segs, dv, dvsize, top, topsize)
    requires var n := p + ck[p].size;
      sz == sz0 - {n} && (if dv == n then dv' == 0 && dvsize' == 0 else dv' == dv && dvsize' == dvsize)
    ensures FreeIn(d, sz) && AboveLeast(d, least) && Settled(sz, d, segs, dv', dvsize', top, topsize)
  {
    hide Coalesced;
    var n := p + ck[p].size;
    assert 0 !in FreeOf(ck);
    assert dv == n ==> sz == FreeOf(d) - {0};
    assert dv != n ==> sz == FreeOf(d) - {dv};
  }

  /** The live chunk `p` takes in the free chunk after it, which has left its bin or was the designated victim. */
  lemma GrowStep(m: Mem, smallmap: bv32, treemap: bv32, b: Bins, ck: Chunks, segs: seq<Segment>, least: int,
                 sz0: map<int, int>,
                 dv: int, dvsize: int, top: int, topsize: int, dv': int, dvsize': int, p: int, s: int)
    requires CanGrow(ck, p) && s == ck[p].size + ck[p + ck[p].size].size
    requires var n := p + ck[p].size;
      b.sz == sz0 - {n} && (if dv == n then dv' == 0 && dvsize' == 0 else dv' == dv && dvsize' == dvsize)
    requires Loose(m, smallmap, treemap, b, ck, segs, least) && Settled(sz0, ck, segs, dv, dvsize, top, topsize)
    ensures var n, d := SetInuse(m, p, s), JoinNext(ck, p);
      && Loose(n, smallmap, treemap, b, d, segs, least) && Settled(b.sz, d, segs, dv', dvsize', top, topsize)
      && PayloadsKept(m, n, d)
      && p in d && d[p] == Chunk(s, Live, ck[p].prev) && LiveOf(d) == LiveOf(ck)[p := s]
  {
    hide Loose, LayoutOk, Shape, Records, Tagged, SegList, Regions, BinsReady, OnlyTags, FreeIn, AboveLeast, Settled,
         Coalesced, FreeOf,
         LiveOf, SetInuse, PayloadsKept, JoinNext, Grown;
    LooseParts(m, smallmap, treemap, b, ck, segs, least);
    SettledCoalesced(sz0, ck, segs, dv, dvsize, top, topsize);
    GrowFacts(ck, segs, p);
    var d := JoinNext(ck, p);
    GrownIs(ck, d, p);
    OkShape(d, segs);
    GrowTags(m, ck, d, p, s);
    NotNoSegments(ck, segs, p);
    NotNull(ck);
    GrowKeeps(ck, d, p, sz0, b.sz, least, segs, dv, dvsize, top, topsize, dv', dvsize');
    TagStep(m, SetInuse(m, p, s), smallmap, treemap, b, ck, d, segs, least);
  }

  lemma GrownIs(ck: Chunks, d: Chunks, p: int)
    requires Grown(ck, d, p)
    ensures CanGrow(ck, p) && Coalesced(d) && p in d
    ensures var s := ck[p].size + ck[p + ck[p].size].size;
      d[p] == Chunk(s, Live, ck[p].prev) && LiveOf(d) == LiveOf(ck)[p := s]
  {
    hide Coalesced, FreeOf, LiveOf;
  }

  lemma TopGrowKeeps(ck: Chunks, d: Chunks, p: int, nb: int, sz: map<int, int>, least: int, segs: seq<Segment>,
                     dv: int, dvsize: int, top: int, topsize: int, s: int)
    requires TopGrown(ck, d, p, nb) && FreeIn(ck, sz) && AboveLeast(ck, least) && segs != [] && s == d[p + nb].size
    requires top == p + ck[p].size
    requires Settled(sz, ck, segs, dv, dvsize, top, topsize)
    ensures FreeIn(d, sz) && AboveLeast(d, least) && Settled(sz, d, segs, dv, dvsize, p + nb, s)
  {
    hide Coalesced, FreeOf;
  }

  /** The live chunk `p` takes in the front of the top. */
  lemma TopGrowStep(m: Mem, smallmap: bv32, treemap: bv32, b: Bins, ck: Chunks, segs: seq<Segment>, least: int,
                    dv: int, dvsize: int, top: int, topsize: int, p: int, nb: int, s: int)
    requires CanGrowTop(ck, p, nb) && s == ck[p].size + ck[p + ck[p].size].size - nb && top == p + ck[p].size
    requires Loose(m, smallmap, treemap, b, ck, segs, least) && Settled(b.sz, ck, segs, dv, dvsize, top, topsize)
    ensures var n, d := SetInuse(m, p, nb)[p + nb + HEAD := s + PINUSE_BIT], GrowTop(ck, p, nb);
      && Loose(n, smallmap, treemap, b, d, segs, least) && Settled(b.sz, d, segs, dv, dvsize, p + nb, s)
      && PayloadsKept(m, n, d)
      && p in d && d[p] == Chunk(nb, Live, ck[p].prev) && LiveOf(d) == LiveOf(ck)[p := nb]
  {
    hide Loose, LayoutOk, Shape, Tagged, SegList, Regions, BinsReady, OnlyTags, FreeIn, AboveLeast, Settled, Coalesced,
         FreeOf, LiveOf, SetInuse, PayloadsKept, GrowTop;
    LooseParts(m, smallmap, treemap, b, ck, segs, least);
    SettledCoalesced(b.sz, ck, segs, dv, dvsize, top, topsize);
    TopGrowFacts(ck, segs, p, nb);
    var d := GrowTop(ck, p, nb);
    OkShape(d, segs);
    TopGrowTags(m, ck, d, p, nb, s);
    NotNoSegments(ck, segs, p);
    TopGrowKeeps(ck, d, p, nb, b.sz, least, segs, dv, dvsize, top, topsize, s);
    TagStep(m, SetInuse(m, p, nb)[p + nb + HEAD := s + PINUSE_BIT], smallmap, treemap, b, ck, d, segs, least);
  }

  // ----- What callers see

  function Min(a: int, b: int): int {
    if a < b then a else b
  }

  /** The block `p` was resized in place to serve a request of `nb` bytes: no other block was touched, nor
      the contents that the old and the new block have in common. */
  ghost predicate Resized(m: Mem, ck: Chunks, n: Mem, d: Chunks, p: int, nb: int) {
    && p in ck && ck[p].kind == Live && p in d && d[p].kind == Live && nb <= d[p].size < nb + MIN_CHUNK_SIZE
    && LiveOf(d) == LiveOf(ck)[p := d[p].size]
    && BlocksKept(m, n, LiveOf(ck)[p := Min(ck[p].size, d[p].size)])
  }

  /** Blocks may be parts of what was kept. */
  lemma KeptParts(m: Mem, n: Mem, ck: Chunks, live: map<int, int>)
    requires PayloadsKept(m, n, ck) && forall a | a in live :: a in ck && ck[a].kind == Live && ck[a].size >= live[a]
    ensures BlocksKept(m, n, live)
  {
    forall a, w | a in live && a + 16 <= w < a + live[a] + 8 ensures Rd(n, w) == Rd(m, w) {
      assert a in ck;
    }
  }

  /** One step made the block larger or smaller. */
  lemma ResizedOnce(m: Mem, ck: Chunks, n: Mem, d: Chunks, p: int, nb: int)
    requires PayloadsKept(m, n, d) && p in ck && ck[p].kind == Live && p in d && d[p].kind == Live
    requires nb <= d[p].size < nb + MIN_CHUNK_SIZE
    requires LiveOf(d) == LiveOf(ck)[p := d[p].size]
    ensures Resized(m, ck, n, d, p, nb)
  {
    hide PayloadsKept, BlocksKept, LiveOf;
    InLive(ck);
    InLive(d);
    var live := LiveOf(ck)[p := Min(ck[p].size, d[p].size)];
    forall a | a in live ensures a in d && d[a].kind == Live && d[a].size >= live[a] { assert a in LiveOf(d); }
    KeptParts(m, n, d, live);
  }

  /** The block was cut, after taking in the free chunk behind it or not, and the part `r` given back. */
  lemma ResizedTwice(l: Mem, m: Mem, m': Mem, n: Mem, n': Mem, ck: Chunks, c: Chunks, d: Chunks, e: Chunks, p: int,
                     nb: int, r: int, rest: int)
    requires p in ck && ck[p].kind == Live && p in c && c[p].kind == Live && p in d
    requires d[p] == Chunk(nb, Live, c[p].prev)
    requires r != p && r !in LiveOf(c) && nb >= 0 && c[p].size >= nb
    requires PayloadsKept(l, m, ck) && (m' == m || PayloadsKept(m, m', c)) && LiveOf(c) == LiveOf(ck)[p := c[p].size]
    requires c[p].size >= ck[p].size
    requires PayloadsKept(m', n, d) && LiveOf(d) == LiveOf(c)[p := nb][r := rest] && LiveOf(e) == LiveOf(d) - {r}
    requires BlocksKept(n, n', LiveOf(e))
    ensures Resized(l, ck, n', e, p, nb)
  {
    hide PayloadsKept, BlocksKept, LiveOf;
    InLive(ck);
    InLive(c);
    InLive(d);
    InLive(e);
    var live := LiveOf(ck)[p := Min(ck[p].size, nb)];
    assert LiveOf(e) == LiveOf(ck)[p := nb];
    KeptParts(l, m, ck, live);
    if m' == m {
      NothingChanged(m, live);
    } else {
      KeptParts(m, m', c, live);
    }
    BlocksTwice(l, m, m', live);
    KeptParts(m', n, d, live);
    BlocksTwice(l, m', n, live);
    PartsKept(n, n', LiveOf(e), live);
    BlocksTwice(l, n, n', live);
  }

  lemma NothingChanged(m: Mem, live: map<int, int>)
    ensures BlocksKept(m, m, live)
  {
  }

  lemma PartsKept(m: Mem, n: Mem, live: map<int, int>, parts: map<int, int>)
    requires BlocksKept(m, n, live) && forall a | a in parts :: a in live && parts[a] <= live[a]
    ensures BlocksKept(m, n, parts)
  {
    forall a, w | a in parts && a + 16 <= w < a + parts[a] + 8 ensures Rd(n, w) == Rd(m, w) {
      assert a in live;
    }
  }

  /** Marking the merged block first makes no difference to marking its two parts. */
  lemma BothAgain(m: Mem, p: int, s: int, rest: int)
    requires s >= 32 && rest >= 32 && s % 16 == 0 && rest % 16 == 0
    ensures SetBoth(SetInuse(m, p, s + rest), p, s, rest) == SetBoth(m, p, s, rest)
  {
    var m' := SetInuse(m, p, s + rest);
    var n, n' := SetBoth(m, p, s, rest), SetBoth(m', p, s, rest);
    BothWords(m, p, s, rest);
    BothWords(m', p, s, rest);
    SameKeys(m, p, s, rest);
    InuseTwice(m, p, s + rest);
    forall w | w in n ensures n'[w] == n[w] {
      assert Rd(n', w) == Rd(n, w);
    }
  }

  lemma SameKeys(m: Mem, p: int, s: int, rest: int)
    ensures SetBoth(SetInuse(m, p, s + rest), p, s, rest).Keys == SetBoth(m, p, s, rest).Keys
  {
  }

  lemma InuseTwice(m: Mem, p: int, t: int)
    requires t > 0
    ensures var m' := SetInuse(m, p, t);
      && (t % 16 == 0 ==> Rd(m', p + HEAD) % 2 == Rd(m, p + HEAD) % 2)
      && Rd(m', p + t + HEAD) == OrPinuse(Rd(m, p + t + HEAD))
      && OrPinuse(Rd(m', p + t + HEAD)) == Rd(m', p + t + HEAD)
      && forall w {:trigger Rd(m', w)} :: w != p + HEAD && w != p + t + HEAD ==> Rd(m', w) == Rd(m, w)
  {
    OrOdd(Rd(m, p + t + HEAD));
    if t % 16 == 0 {
      SameParity(Rd(m, p + HEAD), t / 16);
    }
  }

  lemma SameParity(x: int, k: int)
    ensures (x % 2 + 16 * k + CINUSE_BIT) % 2 == x % 2
  {
    Mod2(8 * k + 1, x % 2);
  }

  lemma BothIs(m: Mem, p: int, s: int, rest: int)
    ensures SetInuse(SetInuse(m, p, s), p + s, rest) == SetBoth(m, p, s, rest)
  {
  }

  lemma SameLive(ck: Chunks, p: int)
    requires p in ck && ck[p].kind == Live
    ensures LiveOf(ck) == LiveOf(ck)[p := ck[p].size]
  {
  }

  /** A block that was not given back is still there. */
  lemma StillThere(d: Chunks, e: Chunks, p: int, r: int)
    requires p in d && d[p].kind == Live && p != r && LiveOf(e) == LiveOf(d) - {r}
    ensures p in e && e[p].kind == Live && e[p].size == d[p].size
  {
    hide LiveOf;
    InLive(e);
    LiveHas(d, p);
    InLive(d);
  }

  lemma ResizedNot(m: Mem, ck: Chunks, p: int, nb: int)
    requires p in ck && ck[p].kind == Live && nb <= ck[p].size < nb + MIN_CHUNK_SIZE
    ensures Resized(m, ck, m, ck, p, nb)
  {
    hide BlocksKept, LiveOf;
    SameLive(ck, p);
    NothingChanged(m, LiveOf(ck)[p := Min(ck[p].size, ck[p].size)]);
  }

  /** What realloc relies on. */
  lemma ReallocReads(m: Mem, smallmap: bv32, treemap: bv32, b: Bins, ck: Chunks, segs: seq<Segment>, least: int, p: int,
                     dv: int, dvsize: int, top: int, topsize: int)
    requires p in ck && ck[p].kind == Live
    requires Loose(m, smallmap, treemap, b, ck, segs, least) && Settled(b.sz, ck, segs, dv, dvsize, top, topsize)
    ensures p >= least && IsInUse(Rd(m, p + HEAD)) && CurInUse(Rd(m, p + HEAD))
    ensures ChunkSize(Rd(m, p + HEAD)) == ck[p].size && segs != []
    ensures NextRead(m, ck, p, top, topsize) && NextReady(m, ck, least, b.sz, p, dv, dvsize)
    ensures Held(m, smallmap, treemap, b, ck, least)
    ensures p > 0 && p % 16 == 0 && ck[p].size >= MIN_CHUNK_SIZE && ck[p].size % 16 == 0
  {
    hide Loose, Held, LayoutOk, Settled, RunBase, Shape;
    FreeReads(m, smallmap, treemap, b, ck, segs, least, b.sz, p, dv, dvsize, top, topsize);
    OkShape(ck, segs);
    ChunkIn(ck, p);
  }

  /** The layout once the live chunk `p` was cut after `nb` bytes and the rest freed. */
  ghost predicate GivenBack(ck: Chunks, e: Chunks, p: int, nb: int) {
    && p in ck
    && var d := Cut(ck, p, nb); p + nb in d && RunBase(d, p + nb) in d && e == Freed(d, p + nb)
  }

  // ----- Growing into the designated victim, part of which stays behind

  /** The layout once `p` took in the free chunk after it and all but `nb` bytes were given back. */
  ghost function Regrown(ck: Chunks, p: int, nb: int): Chunks {
    if p in ck && p + ck[p].size in ck && p in JoinNext(ck, p) then
      var d := Cut(JoinNext(ck, p), p, nb);
      if p + nb in d && RunBase(d, p + nb) in d then Freed(d, p + nb) else d
    else ck
  }

  lemma DvWrites(m: Mem, p: int, s: int, rest: int)
    requires s >= 32 && rest >= 32 && s % 16 == 0 && rest % 16 == 0
    ensures var r, e := p + s, p + s + rest;
      var n := SetSizeOfFree(SetInuse(m, p, s), r, rest);
      n[e + HEAD := ClearPinuse(Rd(n, e + HEAD))] == SetFree(SetBoth(m, p, s, rest), r, rest, e)
  {
    var r, e := p + s, p + s + rest;
    var n := SetSizeOfFree(SetInuse(m, p, s), r, rest);
    BothWords(m, p, s, rest);
    ClearOr(Rd(m, e + HEAD));
    var x, y := n[e + HEAD := ClearPinuse(Rd(n, e + HEAD))], SetFree(SetBoth(m, p, s, rest), r, rest, e);
    assert x.Keys == y.Keys;
    forall w | w in x ensures x[w] == y[w] {
      assert Rd(x, w) == Rd(y, w) by { DvWord(m, p, s, rest, w); }
    }
  }

  lemma ClearOr(w: int)
    ensures ClearPinuse(OrPinuse(w)) == ClearPinuse(w)
  {
  }

  lemma DvWord(m: Mem, p: int, s: int, rest: int, w: int)
    requires s >= 32 && rest >= 32 && s % 16 == 0 && rest % 16 == 0
    ensures var r, e := p + s, p + s + rest;
      var n := SetSizeOfFree(SetInuse(m, p, s), r, rest);
      Rd(n[e + HEAD := ClearPinuse(Rd(n, e + HEAD))], w) == Rd(SetFree(SetBoth(m, p, s, rest), r, rest, e), w)
  {
    hide SetBoth, SetInuse, ClearPinuse;
    BothWords(m, p, s, rest);
    InuseWords(m, p, s);
    var r, e := p + s, p + s + rest;
    var i, b := SetInuse(m, p, s), SetBoth(m, p, s, rest);
    ClearOr(Rd(m, e + HEAD));
    var n := SetSizeOfFree(i, r, rest);
    assert Rd(i, e + HEAD) == Rd(m, e + HEAD);
    assert Rd(n, e + HEAD) == Rd(m, e + HEAD);
    if w != r + HEAD && w != e && w != e + HEAD {
      assert Rd(i, w) == Rd(b, w);
    }
  }

  lemma InuseWords(m: Mem, p: int, t: int)
    requires t > 0
    ensures var n := SetInuse(m, p, t);
      && Rd(n, p + HEAD) == Rd(m, p + HEAD) % 2 + t + CINUSE_BIT
      && forall w {:trigger Rd(n, w)} :: w != p + HEAD && w != p + t + HEAD ==> Rd(n, w) == Rd(m, w)
  {
  }

  /** A chunk that was about to be binned is the designated victim instead. */
  lemma MakeDv(sz: map<int, int>, ck: Chunks, segs: seq<Segment>, top: int, topsize: int, r: int, s: int)
    requires Settled(sz[r := s], ck, segs, 0, 0, top, topsize) && r in ck && ck[r] == Chunk(s, Free, 0) && r !in sz
    requires r != 0 && s != 0 && 0 !in ck
    ensures Settled(sz, ck, segs, r, s, top, topsize)
  {
    hide Coalesced, TopOk;
    assert 0 !in FreeOf(ck);
    assert FreeOf(ck) == sz[r := s];
  }

  /** What freeing the rest of a block that was just cut amounts to. */
  ghost predicate RestGone(m: Mem, n: Mem, smallmap: bv32, treemap: bv32, b: Bins, d: Chunks, segs: seq<Segment>,
                           least: int, top: int, topsize: int, r: int, rest: int) {
    && r in d && RunBase(d, r) in d
    && Merged(m, n, smallmap, treemap, b, d, segs, least, r, r, rest, Free, b.sz[r := rest], 0, 0, top, topsize)
    && r !in b.sz && r > 0 && rest > 0 && 0 !in Freed(d, r)
  }

  /** The rest `r` of a block that was just cut, with no free neighbours, is freed. */
  lemma RestFreed(m: Mem, smallmap: bv32, treemap: bv32, b: Bins, c: Chunks, d: Chunks, segs: seq<Segment>, least: int,
                  top: int, topsize: int,
                  p: int, nb: int, r: int, rest: int, e: int)
    requires r == p + nb && e == r + rest && CutInto(c, d, p, nb) && c[p].size == nb + rest && e in c
    requires (c[e].kind == Live || c[e].kind == Record) && c[p].kind == Live
    requires nb > 0 && rest > 0
    requires Loose(m, smallmap, treemap, b, d, segs, least) && Settled(b.sz, d, segs, 0, 0, top, topsize)
    ensures RestGone(m, SetFree(m, r, rest, e), smallmap, treemap, b, d, segs, least, top, topsize, r, rest)
  {
    hide Loose, LayoutOk, Shape, Settled, LiveOf, Freed, SetFree, FreeIn, PayloadsKept, Merging, Merged, Cut, Tagged,
         Regions, SegList, Records, BinsReady, AboveLeast;
    LooseParts(m, smallmap, treemap, b, d, segs, least);
    ChunkIn(d, r);
    CutEnd(c, d, p, nb, e);
    RestMerging(m, smallmap, treemap, b, d, segs, least, top, topsize, r, e);
    FreedOk(d, segs, r);
    EndUsed(m, m, SetFree(m, r, rest, e), smallmap, treemap, b, d, segs, least, r, r, e, rest, b.sz, 0, 0, top,
            topsize);
    OkShape(Freed(d, r), segs);
    NotNull(Freed(d, r));
  }

  lemma RestMerging(m: Mem, smallmap: bv32, treemap: bv32, b: Bins, d: Chunks, segs: seq<Segment>, least: int,
                    top: int, topsize: int, r: int, e: int)
    requires r in d && d[r].kind == Live && d[r].prev == 0 && e == r + d[r].size && e in d && d[e].kind != Free
    requires Loose(m, smallmap, treemap, b, d, segs, least) && Settled(b.sz, d, segs, 0, 0, top, topsize)
    ensures Merging(m, m, smallmap, treemap, b, d, segs, least, r, b.sz, 0, 0, top, topsize) && r !in b.sz
  {
    hide Loose, LayoutOk, Shape, Settled, FreeIn, PayloadsKept, Records, Tagged, SegList, Regions, BinsReady,
         AboveLeast;
    LooseParts(m, smallmap, treemap, b, d, segs, least);
    KeptSelf(m, d);
    NotBinned(d, b.sz, r);
    NotBinned(d, b.sz, e);
  }

  lemma CutEnd(c: Chunks, d: Chunks, p: int, nb: int, e: int)
    requires CutInto(c, d, p, nb) && e in c && e == p + c[p].size && c[p].size > nb && nb > 0
    ensures e in d && d[e] == c[e]
  {
    hide LiveOf;
  }

  lemma NotBinned(ck: Chunks, sz: map<int, int>, x: int)
    requires FreeIn(ck, sz) && x in ck && ck[x].kind != Free
    ensures x !in sz
  {
  }

  /** The whole of it. */
  lemma GrowDv(m: Mem, smallmap: bv32, treemap: bv32, b: Bins, ck: Chunks, segs: seq<Segment>, least: int,
               dv: int, dvsize: int, top: int, topsize: int, p: int, nb: int, rest: int)
    requires CanGrow(ck, p) && dv == p + ck[p].size && rest == ck[p].size + ck[dv].size - nb && rest >= MIN_CHUNK_SIZE
    requires nb >= MIN_CHUNK_SIZE && nb % 16 == 0
    requires nb > ck[p].size
    requires Loose(m, smallmap, treemap, b, ck, segs, least) && Settled(b.sz, ck, segs, dv, dvsize, top, topsize)
    ensures var n := SetSizeOfFree(SetInuse(m, p, nb), p + nb, rest);
      var n' := n[p + nb + rest + HEAD := ClearPinuse(Rd(n, p + nb + rest + HEAD))];
      var f := Regrown(ck, p, nb);
      && Loose(n', smallmap, treemap, b, f, segs, least) && Settled(b.sz, f, segs, p + nb, rest, top, topsize)
      && Resized(m, ck, n', f, p, nb)
  {
    hide Loose, LayoutOk, Shape, Settled, LiveOf, Freed, SetFree, FreeIn, PayloadsKept, SetBoth, SetInuse,
         SetSizeOfFree, JoinNext, Coalesced, FreeOf, BlocksKept, Resized, RunBase;
    var s, r, e := nb + rest, p + nb, p + nb + rest;
    GrowDvReads(m, smallmap, treemap, b, ck, segs, least, dv, dvsize, top, topsize, p);
    var c := JoinNext(ck, p);
    GrowStep(m, smallmap, treemap, b, ck, segs, least, b.sz, dv, dvsize, top, topsize, 0, 0, p, s);
    var m1 := SetInuse(m, p, s);
    var d := Cut(c, p, nb);
    CutStep(m1, smallmap, treemap, b, c, d, segs, least, 0, 0, top, topsize, p, nb, rest);
    BothAgain(m, p, nb, rest);
    var m2 := SetBoth(m, p, nb, rest);
    RestFreed(m2, smallmap, treemap, b, c, d, segs, least, top, topsize, p, nb, r, rest, e);
    DvWrites(m, p, nb, rest);
    var n := SetFree(m2, r, rest, e);
    MakeDv(b.sz, Freed(d, r), segs, top, topsize, r, rest);
    KeptSelf(m, ck);
    StillThere(d, Freed(d, r), p, r);
    ResizedTwice(m, m, m1, m2, n, ck, c, d, Freed(d, r), p, nb, r, rest);
  }

  lemma GrowDvReads(m: Mem, smallmap: bv32, treemap: bv32, b: Bins, ck: Chunks, segs: seq<Segment>, least: int,
                    dv: int, dvsize: int, top: int, topsize: int, p: int)
    requires CanGrow(ck, p) && dv == p + ck[p].size
    requires Loose(m, smallmap, treemap, b, ck, segs, least) && Settled(b.sz, ck, segs, dv, dvsize, top, topsize)
    ensures b.sz == b.sz - {dv} && ck[p].size % 16 == 0 && ck[dv].size % 16 == 0 && ck[dv].size == dvsize
    ensures ck[p].size > 0
    ensures Grown(ck, JoinNext(ck, p), p) && LayoutOk(JoinNext(ck, p), segs)
  {
    hide Loose, LayoutOk, Shape, FreeOf, JoinNext, Grown, TopOk;
    LooseParts(m, smallmap, treemap, b, ck, segs, least);
    ChunkIn(ck, p);
    ChunkIn(ck, dv);
    NotNull(ck);
    GrowFacts(ck, segs, p);
  }

  lemma DvFree(m: Mem, smallmap: bv32, treemap: bv32, b: Bins, ck: Chunks, segs: seq<Segment>, least: int, p: int,
               dv: int, dvsize: int, top: int, topsize: int)
    requires p in ck && ck[p].kind == Live && dv == p + ck[p].size
    requires Loose(m, smallmap, treemap, b, ck, segs, least) && Settled(b.sz, ck, segs, dv, dvsize, top, topsize)
    ensures CanGrow(ck, p) && ck[dv].size == dvsize && b.sz == b.sz - {dv}
  {
    hide Loose, Shape, Coalesced, TopOk, LayoutOk, Records, Tagged, SegList, Regions, BinsReady, FreeIn, AboveLeast,
         Settled, DvOk;
    LooseParts(m, smallmap, treemap, b, ck, segs, least);
    ChunkIn(ck, p);
    DvSettled(b.sz, ck, segs, dv, dvsize, top, topsize);
  }

  lemma DvSettled(sz: map<int, int>, ck: Chunks, segs: seq<Segment>, dv: int, dvsize: int, top: int, topsize: int)
    requires Settled(sz, ck, segs, dv, dvsize, top, topsize) && dv > 0
    ensures dv in ck && ck[dv].kind == Free && ck[dv].size == dvsize && dv !in sz
  {
    hide Coalesced, TopOk, FreeOf;
  }

  lemma ResizedLater(l: Mem, m: Mem, n: Mem, ck: Chunks, d: Chunks, p: int, nb: int)
    requires PayloadsKept(l, m, ck) && PayloadsKept(m, n, d) && p in ck && ck[p].kind == Live && p in d
    requires d[p].kind == Live
    requires nb <= d[p].size < nb + MIN_CHUNK_SIZE && ck[p].size <= d[p].size && LiveOf(d) == LiveOf(ck)[p := d[p].size]
    ensures Resized(l, ck, n, d, p, nb)
  {
    hide PayloadsKept, BlocksKept, LiveOf;
    InLive(ck);
    InLive(d);
    var live := LiveOf(ck)[p := Min(ck[p].size, d[p].size)];
    KeptParts(l, m, ck, live);
    forall a | a in live ensures a in d && d[a].kind == Live && d[a].size >= live[a] { assert a in LiveOf(d); }
    KeptParts(m, n, d, live);
    BlocksTwice(l, m, n, live);
  }

  /** What extending into a binned chunk reads. */
  ghost predicate BinnedRead(m: Mem, ck: Chunks, sz: map<int, int>, p: int) {
    && CanGrow(ck, p) && p > 0
    && var n := p + ck[p].size;
      && ChunkSize(Rd(m, p + HEAD)) == ck[p].size && ChunkSize(Rd(m, n + HEAD)) == ck[n].size && n in sz
      && sz[n] == ck[n].size && ck[p].size >= MIN_CHUNK_SIZE && Sixteens(ck[p].size, ck[n].size)
  }

  predicate Sixteens(a: int, b: int) {
    a % 16 == 0 && b % 16 == 0
  }

  /** The block and the free chunk after it make a block of `nb` bytes and a rest that can be a chunk. */
  ghost predicate Splits(ck: Chunks, p: int, nb: int, rest: int) {
    && CanGrow(ck, p) && nb + rest == ck[p].size + ck[p + ck[p].size].size && ck[p].size <= nb
    && MIN_CHUNK_SIZE <= nb && MIN_CHUNK_SIZE <= rest && nb % 16 == 0 && rest % 16 == 0
  }

  lemma SplitsAt(m: Mem, ck: Chunks, sz: map<int, int>, p: int, nb: int, rest: int)
    requires BinnedRead(m, ck, sz, p) && ck[p].size < nb && nb % 16 == 0 && rest >= MIN_CHUNK_SIZE
    requires nb + rest == ck[p].size + ck[p + ck[p].size].size
    ensures Splits(ck, p, nb, rest)
  {
    hide ChunkSize;
  }

  lemma BinnedNext(m: Mem, smallmap: bv32, treemap: bv32, b: Bins, ck: Chunks, segs: seq<Segment>, least: int, p: int,
                   dv: int, dvsize: int, top: int, topsize: int)
    requires CanGrow(ck, p) && dv != p + ck[p].size
    requires Loose(m, smallmap, treemap, b, ck, segs, least) && Settled(b.sz, ck, segs, dv, dvsize, top, topsize)
    ensures BinnedRead(m, ck, b.sz, p) && Held(m, smallmap, treemap, b, ck, least)
  {
    hide Loose, Held, LayoutOk, Settled, Shape;
    ReallocReads(m, smallmap, treemap, b, ck, segs, least, p, dv, dvsize, top, topsize);
    LooseKnown(m, smallmap, treemap, b, ck, segs, least);
    OkShape(ck, segs);
    ChunkIn(ck, p + ck[p].size);
  }

  /** The head of a block. */
  lemma BlockSize(m: Mem, smallmap: bv32, treemap: bv32, b: Bins, ck: Chunks, segs: seq<Segment>, least: int, p: int,
                  dv: int, dvsize: int, top: int, topsize: int)
    requires p in ck && ck[p].kind == Live
    requires Loose(m, smallmap, treemap, b, ck, segs, least) && Settled(b.sz, ck, segs, dv, dvsize, top, topsize)
    ensures ChunkSize(Rd(m, p + HEAD)) == ck[p].size && ck[p].size >= MIN_CHUNK_SIZE && ck[p].size % 16 == 0 && p > 0
    ensures p % 16 == 0
    ensures p + ck[p].size in ck && (p + ck[p].size == top ==> ck[top].kind == Top && ck[top].size == topsize)
  {
    hide Loose, Held, LayoutOk, Settled, Shape, NextReady;
    ReallocReads(m, smallmap, treemap, b, ck, segs, least, p, dv, dvsize, top, topsize);
  }

  /** The block took in the binned chunk after it, and the rest `r` of the whole is about to be given back. */
  lemma GrowCut(m: Mem, smallmap: bv32, treemap: bv32, b: Bins, ck: Chunks, c: Chunks, d: Chunks, segs: seq<Segment>,
                least: int, sz0: map<int, int>,
                dv: int, dvsize: int, top: int, topsize: int, p: int, nb: int, rest: int)
    requires CanGrow(ck, p) && c == JoinNext(ck, p) && CanCutTotal(c, d, p, nb)
    requires nb + rest == ck[p].size + ck[p + ck[p].size].size
    requires MIN_CHUNK_SIZE <= nb && MIN_CHUNK_SIZE <= rest && nb % 16 == 0 && rest % 16 == 0
    requires b.sz == sz0 - {p + ck[p].size} && dv != p + ck[p].size
    requires Loose(m, smallmap, treemap, b, ck, segs, least) && Settled(sz0, ck, segs, dv, dvsize, top, topsize)
    ensures var m', n := SetInuse(m, p, nb + rest), SetBoth(m, p, nb, rest);
      && Loose(n, smallmap, treemap, b, d, segs, least) && Settled(b.sz, d, segs, dv, dvsize, top, topsize)
      && PayloadsKept(m, m', c) && PayloadsKept(m', n, d)
    ensures CutInto(c, d, p, nb) && c[p] == Chunk(nb + rest, Live, ck[p].prev)
    ensures LiveOf(c) == LiveOf(ck)[p := nb + rest]
  {
    hide Loose, Settled, SetInuse, SetBoth, PayloadsKept, JoinNext, LiveOf, Cut;
    GrowStep(m, smallmap, treemap, b, ck, segs, least, sz0, dv, dvsize, top, topsize, dv, dvsize, p, nb + rest);
    CutStep(SetInuse(m, p, nb + rest), smallmap, treemap, b, c, d, segs, least, dv, dvsize, top, topsize, p, nb, rest);
    BothAgain(m, p, nb, rest);
  }

  ghost predicate CanCutTotal(c: Chunks, d: Chunks, p: int, nb: int) {
    p in c ==> d == Cut(c, p, nb)
  }

  ghost function CutOf(c: Chunks, p: int, nb: int): Chunks {
    if p in c then Cut(c, p, nb) else c
  }

  /** The block and the free chunk after it are together too small. */
  ghost predicate NextTooSmall(ck: Chunks, p: int, nb: int) {
    CanGrow(ck, p) && ck[p].size + ck[p + ck[p].size].size < nb
  }

  /** The block `p` cannot be given `nb` bytes where it is. */
  ghost predicate Stuck(ck: Chunks, p: int, nb: int) {
    && p in ck && ck[p].size < nb
    && var n := p + ck[p].size;
      n in ck ==>
        && (ck[n].kind == Top ==> ck[p].size + ck[n].size <= nb)
        && (ck[n].kind == Free ==> ck[p].size + ck[n].size < nb)
  }
}
