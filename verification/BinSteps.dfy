/** Bin operations from the side of their caller: what they read, which writes they make, and what the
    writes amount to. */
module BinSteps {
  import opened Memory
  import opened Bits
  import opened BinMap
  import opened Ring
  import opened Tries
  import opened Bins
  import opened SmallBins
  import opened TreeBins
  import opened TreeReads

  /** The bins, with the head words of the binned chunks and the bound that the run-time checks use. */
  ghost predicate BinsReady(m: Mem, smallmap: bv32, treemap: bv32, b: Bins, least: int) {
    BinsOk(m, smallmap, treemap, b) && SizeTags(m, b.sz) && AllAbove(b.sz, least)
  }

  ghost predicate AllAbove(sz: map<int, int>, least: int) {
    forall x | x in sz :: x >= least
  }

  lemma SmallReady(m: Mem, smallmap: bv32, treemap: bv32, b: Bins, i: nat, least: int)
    requires BinsOk(m, smallmap, treemap, b) && AllAbove(b.sz, least) && i < NBINS
    ensures |b.small| == NBINS && (Marked(smallmap, i) <==> b.small[i] != [])
    ensures b.small[i] != [] ==> Rd(m, SmallBinAt(i) + FD) >= least
    ensures FirstOf(m, b, i) == if Marked(smallmap, i) then Rd(m, SmallBinAt(i) + FD) else SmallBinAt(i)
  {
    hide Marked, Apart, TreeOk, SmallPlaced;
    FirstInBin(m, smallmap, b, i);
    assert SmallBinOk(m, smallmap, b.small[i], i);
  }

  lemma LinkWrites(m: Mem, h: int, f: int, x: int)
    requires (h + 16 <= x || x + 16 <= h) && (f + 16 <= x || x + 16 <= f)
    ensures LinksIn(m, m[h + FD := x][f + BK := x][x + FD := f][x + BK := h], h, f, x, 32)
  {
  }

  lemma SizeTagsMore(m: Mem, sz: map<int, int>, x: int, s: int)
    requires SizeTags(m, sz) && ChunkSize(Rd(m, x + HEAD)) == s
    ensures SizeTags(m, sz[x := s])
  {
  }

  lemma FreshHeader(b: Bins, i: nat, f: int, x: int, s: int)
    requires Apart(b.sz) && i < NBINS && |b.small| == NBINS && InSmallBin(b, f, i) && Fresh(b.sz, x, s)
    ensures f + 16 <= x || x + 16 <= f
  {
  }

  lemma SmallInserted(m: Mem, n: Mem, smallmap: bv32, treemap: bv32, b: Bins, x: int, s: int, least: int, f: int)
    requires BinsOk(m, smallmap, treemap, b) && SizeTags(m, b.sz) && AllAbove(b.sz, least)
    requires SmallSize(s) && Fresh(b.sz, x, s) && x >= least && ChunkSize(Rd(m, x + HEAD)) == s
    requires f == FirstOf(m, b, s / 8)
    requires var h := SmallBinAt(s / 8); n == m[h + FD := x][f + BK := x][x + FD := f][x + BK := h]
    ensures var c := AddSmall(b, x, s);
      && BinsOk(n, if Marked(smallmap, s / 8) then smallmap else Mark(smallmap, s / 8), treemap, c)
      && SizeTags(n, c.sz) && AllAbove(c.sz, least) && Within(m, n, c.sz)
  {
    hide Marked, Mark, SmallOk, TreeOk, Apart, Within, SizeTags, Fresh, FirstOf, InSmallBin, LinksIn;
    var i, h := s / 8, SmallBinAt(s / 8);
    SmallShape(m, smallmap, b);
    FirstInBin(m, smallmap, b, i);
    FreshHeader(b, i, h, x, s);
    FreshHeader(b, i, f, x, s);
    LinkWrites(m, h, f, x);
    Inserted(m, n, smallmap, treemap, b, x, s);
    InsertedWithin(m, n, smallmap, b, x, s, b.sz[x := s]);
    SizeTagsMore(m, b.sz, x, s);
    AddApart(b.sz, x, s);
    WithinSizes(m, n, b.sz[x := s], b.sz[x := s]);
  }

  // ----- unlink_small_chunk

  /** What unlinking the chunk at position `k` of bin `i` reads and checks. */
  lemma SmallLinks(m: Mem, smallmap: bv32, treemap: bv32, b: Bins, i: nat, k: nat, least: int)
    requires BinsReady(m, smallmap, treemap, b, least) && i < NBINS && |b.small| == NBINS && k < |b.small[i]|
    ensures var x, h := b.small[i][k], SmallBinAt(i);
      var f, e := Rd(m, x + FD), Rd(m, x + BK);
      && (e == f <==> |b.small[i]| == 1)
      && Rd(m, f + BK) == x && Rd(m, e + FD) == x && f + BK != e + FD
      && (f != h ==> f >= least) && (e != h ==> e >= least)
  {
    hide Marked, Apart, TreeOk, SizeTags, SmallPlaced, SmallBinOk;
    NeighboursInBin(m, smallmap, b, i, k);
  }

  lemma OutWrites(m: Mem, n: Mem, b: Bins, i: nat, k: nat)
    requires |b.small| == NBINS && i < NBINS && k < |b.small[i]|
    requires var x := b.small[i][k];
      var f, e := Rd(m, x + FD), Rd(m, x + BK);
      if |b.small[i]| == 1 then n == m else f + BK != e + FD && n == m[f + BK := e][e + FD := f]
    ensures UnlinkWrites(m, n, b, i, k)
  {
  }

  /** Where the small chunk `x` is. */
  lemma SmallMember(m: Mem, smallmap: bv32, treemap: bv32, b: Bins, x: int, least: int) returns (k: nat)
    requires BinsReady(m, smallmap, treemap, b, least) && x in b.sz && b.sz[x] < 256
    ensures var s := b.sz[x]; SmallSize(s) && |b.small| == NBINS && k < |b.small[s / 8]| && b.small[s / 8][k] == x
  {
    hide Marked, Apart, TreeOk, SizeTags, SmallPlaced, SmallBinOk;
    var s := b.sz[x];
    SmallIndex(b, x);
    k :| 0 <= k < |b.small[s / 8]| && b.small[s / 8][k] == x;
  }

  lemma SmallIndex(b: Bins, x: int)
    requires Apart(b.sz) && |b.small| == NBINS && SmallPlaced(b) && x in b.sz && b.sz[x] < 256
    ensures SmallSize(b.sz[x]) && x in b.small[b.sz[x] / 8]
  {
  }

  lemma FirstMember(m: Mem, smallmap: bv32, treemap: bv32, b: Bins, i: nat, least: int)
    requires BinsReady(m, smallmap, treemap, b, least) && i < NBINS && Marked(smallmap, i)
    ensures |b.small| == NBINS && |b.small[i]| > 0
    ensures var x := Rd(m, SmallBinAt(i) + FD);
      && x == b.small[i][0] && x in b.sz && b.sz[x] == 8 * i && x >= least && SmallSize(8 * i)
      && Rd(m, x + BK) == SmallBinAt(i)
  {
    hide Marked, Apart, TreeOk, SizeTags, SmallPlaced, Linked;
    SmallShape(m, smallmap, b);
    assert SmallBinOk(m, smallmap, b.small[i], i);
    FirstInBin(m, smallmap, b, i);
    FirstLinks(m, [SmallBinAt(i)] + b.small[i]);
    FirstSize(b, i);
  }

  lemma FirstLinks(m: Mem, r: seq<int>)
    requires |r| > 1 && Linked(m, r)
    ensures Rd(m, r[0] + FD) == r[1] && Rd(m, r[1] + BK) == r[0]
  {
    assert Link(m, r, 0);
  }

  lemma FirstSize(b: Bins, i: nat)
    requires Apart(b.sz) && |b.small| == NBINS && SmallPlaced(b) && i < NBINS && |b.small[i]| > 0
    ensures b.small[i][0] in b.sz && b.sz[b.small[i][0]] == 8 * i && SmallSize(8 * i)
  {
    var x := b.small[i][0];
    assert x in b.sz && b.sz[x] == 8 * i;
  }

  lemma SmallRemoved(m: Mem, n: Mem, smallmap: bv32, treemap: bv32, b: Bins, i: nat, k: nat, least: int)
    requires BinsReady(m, smallmap, treemap, b, least) && i < NBINS && |b.small| == NBINS && k < |b.small[i]|
    requires UnlinkWrites(m, n, b, i, k)
    ensures b.small[i][k] in b.sz
    ensures var c := DropSmall(b, i, k);
      && BinsReady(n, if |b.small[i]| == 1 then Clear(smallmap, i) else smallmap, treemap, c, least)
      && Within(m, n, b.sz)
  {
    hide Marked, Clear, SmallOk, TreeOk, Apart, Within, SizeTags, UnlinkWrites, BinsOk;
    assert Apart(b.sz) && SmallOk(m, smallmap, b) by { Unfold(m, smallmap, treemap, b); }
    NeighboursInBin(m, smallmap, b, i, k);
    Removed(m, n, smallmap, treemap, b, i, k);
    RemovedWithin(m, n, smallmap, b, i, k);
    SizeTagsLess(m, b.sz, b.small[i][k]);
    WithinSizes(m, n, b.sz, b.sz - {b.small[i][k]});
  }

  lemma Unfold(m: Mem, smallmap: bv32, treemap: bv32, b: Bins)
    requires BinsOk(m, smallmap, treemap, b)
    ensures Apart(b.sz) && SmallOk(m, smallmap, b) && TreeOk(m, treemap, b)
  {
  }

  lemma SizeTagsLess(m: Mem, sz: map<int, int>, x: int)
    requires SizeTags(m, sz)
    ensures SizeTags(m, sz - {x})
  {
  }

  // ----- insert_large_chunk

  lemma LargeInserted(m: Mem, n: Mem, smallmap: bv32, treemap': bv32, b: Bins, c: Bins, x: int, s: int, least: int)
    requires Apart(b.sz) && SizeTags(m, b.sz) && AllAbove(b.sz, least)
    requires Fresh(b.sz, x, s) && s >= 256 && x >= least && ChunkSize(Rd(m, x + HEAD)) == s
    requires BinsOk(n, smallmap, treemap', c) && c.sz == b.sz[x := s] && TreeOnly(m, n, b.sz, x)
    ensures BinsReady(n, smallmap, treemap', c, least) && Within(m, n, c.sz)
  {
    hide BinsOk, Apart, SizeTags, TreeOnly, Within;
    AddApart(b.sz, x, s);
    FreshLarge(b.sz, x, s);
    TreeWithin(m, n, b.sz, x, c.sz);
    SizeTagsMore(m, b.sz, x, s);
    WithinSizes(m, n, c.sz, c.sz);
  }

  lemma LeafStep(m: Mem, n: Mem, smallmap: bv32, treemap: bv32, b: Bins, x: int, s: int, p: Pos, least: int)
    requires BinsReady(m, smallmap, treemap, b, least) && LargeSize(s) && Fresh(b.sz, x, s) && x >= least
    requires ChunkSize(Rd(m, x + HEAD)) == s
    requires CanHang(b.trie, p) && p == Path(s, p.w) && forall y | y in b.trie.loc :: y in b.sz && b.sz[y] != s
    requires Hangs(m, n, x, SlotAddr(b.trie, p), ParentWord(b.trie, p), p.i)
    ensures p.i < NBINS
    ensures var c := AddLarge(b, x, s, AddLeaf(b.trie, x, p));
      BinsReady(n, smallmap, MarkIf(p.w == Width(p.i), treemap, p.i), c, least) && Within(m, n, c.sz)
  {
    hide Marked, Mark, MarkIf, Apart, SmallOk, SizeTags, Fresh, Hangs, Path, Width, RootQ, SlotAddr, ParentWord,
         CanHang, TreeOnly, BinsOk, TreeOk, AllAbove, Within;
    Unfold(m, smallmap, treemap, b);
    LeafInserted(m, n, smallmap, treemap, b, x, s, p);
    assert WellFormed(b.trie, b.sz) by { UnfoldTree(m, treemap, b); }
    IsLocated(b.trie, b.sz);
    HangTreeOnly(m, n, b.trie, b.sz, x, p);
    LargeInserted(m, n, smallmap, MarkIf(p.w == Width(p.i), treemap, p.i), b, AddLarge(b, x, s, AddLeaf(b.trie, x, p)),
                  x, s, least);
  }

  lemma UnfoldTree(m: Mem, treemap: bv32, b: Bins)
    requires TreeOk(m, treemap, b)
    ensures WellFormed(b.trie, b.sz)
  {
  }

  lemma ChainStep(m: Mem, n: Mem, smallmap: bv32, treemap: bv32, b: Bins, x: int, s: int, p: Pos, least: int)
    requires BinsReady(m, smallmap, treemap, b, least) && LargeSize(s) && Fresh(b.sz, x, s) && x >= least
    requires ChunkSize(Rd(m, x + HEAD)) == s
    requires p in b.trie.at && p == Path(s, p.w) && SizeAt(b.trie, b.sz, p) == s
    requires Chains(m, n, x, Head(b.trie, p), Rd(m, Head(b.trie, p) + FD), p.i)
    ensures |b.trie.at[p]| > 0
    ensures var c := AddLarge(b, x, s, AddChained(b.trie, x, p));
      BinsReady(n, smallmap, treemap, c, least) && Within(m, n, c.sz)
  {
    hide Marked, Apart, SmallOk, SizeTags, Fresh, Path, TreeOnly, BinsOk, TreeOk, AllAbove, Within, SizeAt, Chains,
         Located, WellFormed;
    Unfold(m, smallmap, treemap, b);
    ChainInserted(m, n, smallmap, treemap, b, x, s, p);
    ChainTreeOnly(m, n, treemap, b, x, s, p);
    LargeInserted(m, n, smallmap, treemap, b, AddLarge(b, x, s, AddChained(b.trie, x, p)), x, s, least);
  }

  lemma ChainTreeOnly(m: Mem, n: Mem, treemap: bv32, b: Bins, x: int, s: int, p: Pos)
    requires Apart(b.sz) && TreeOk(m, treemap, b) && p in b.trie.at && Fresh(b.sz, x, s) && s >= 256
    requires Chains(m, n, x, Head(b.trie, p), Rd(m, Head(b.trie, p) + FD), p.i)
    ensures |b.trie.at[p]| > 0 && TreeOnly(m, n, b.sz, x)
  {
    hide Apart, Fresh, WellFormed, Located, Linked, TreeOnly, AtOrFresh, SlotOk, TailOk, OnlyNodes;
    var t, sz := b.trie, b.sz;
    assert NodeOk(m, t, p);
    IsLocated(t, sz);
    var h, f := Head(t, p), Rd(m, Head(t, p) + FD);
    FirstNext(m, t.at[p]);
    MemberAt(t, sz, p, h);
    MemberAt(t, sz, p, f);
    FreshAt(t, sz, p, x, s);
    ChainsOnly(m, n, x, h, f, p.i);
    NodesTreeOnly(m, n, t, sz, p, h, f, x);
  }

  // ----- unlink_large_chunk

  /** What unlink_large_chunk reads of the chunk it is given. */
  lemma LargeMember(m: Mem, smallmap: bv32, treemap: bv32, b: Bins, x: int, least: int) returns (k: nat)
    requires BinsReady(m, smallmap, treemap, b, least) && x in b.trie.loc
    ensures x in b.sz && b.sz[x] >= 256
    ensures var t := b.trie;
      && t.loc[x] in t.at && k < |t.at[t.loc[x]]| && t.at[t.loc[x]][k] == x && PosOk(t.loc[x])
      && (Rd(m, x + BK) == x <==> |t.at[t.loc[x]]| == 1)
      && (Rd(m, x + PARENT) == 0 <==> k > 0)
      && (k == 0 ==> x == Head(t, t.loc[x]) && Rd(m, x + PARENT) == ParentWord(t, t.loc[x]) && Rd(m, x + INDEX) == t.loc[x].i)
  {
    hide Marked, Apart, SmallOk, SizeTags, Keyed, Unique, Chained, Complete, SlotOk, Linked, Distinct, ParentWord,
         ChildWord, Path, AllAbove;
    var t, sz := b.trie, b.sz;
    var p := t.loc[x];
    k :| 0 <= k < |t.at[p]| && t.at[p][k] == x;
    assert NodeOk(m, t, p);
    assert PosOk(p);
    IsLocated(t, sz);
    MemberAt(t, sz, p, x);
    AloneOrNot(m, t, sz, p, k);
    if k == 0 {
      ParentSet(t, sz, p);
    }
  }

  lemma AloneOrNot(m: Mem, t: Trie, sz: map<int, int>, p: Pos, k: nat)
    requires Apart(sz) && Located(t, sz) && p in t.at && NodeOk(m, t, p) && k < |t.at[p]|
    ensures Rd(m, t.at[p][k] + BK) == t.at[p][k] <==> |t.at[p]| == 1
  {
    hide Apart, Located, Linked, Spaced, WideApart, HeadOk, TailOk;
    ChainMembersAt(m, t, sz, p);
    if |t.at[p]| > 1 {
      Neighbours(m, t.at[p], k);
    } else {
      SelfLinked(m, t.at[p]);
    }
  }

  lemma SelfLinked(m: Mem, r: seq<int>)
    requires |r| == 1 && Linked(m, r)
    ensures Rd(m, r[0] + BK) == r[0]
  {
    assert Link(m, r, 0);
  }

  /** Parent words of nodes are never null: that is how nodes are told from chained chunks. */
  lemma ParentSet(t: Trie, sz: map<int, int>, p: Pos)
    requires Apart(sz) && Located(t, sz) && Shaped(t) && p in t.at
    ensures ParentWord(t, p) > 0
  {
    hide Apart, Width, RootQ;
    assert PosOk(p);
    if p.w < Width(p.i) {
      PositiveAt(t, sz, Up(p), 0);
    }
  }

  // ----- The writes of insert_large_chunk

  /** The three words written before the search. */
  ghost predicate Prepared(m: Mem, n: Mem, x: int, i: int) {
    n == m[x + INDEX := i][x + CHILD := 0][x + CHILD + 8 := 0]
  }

  lemma HangWrites(m: Mem, m': Mem, n: Mem, x: int, c: int, par: int, i: int)
    requires Prepared(m, m', x, i) && (c < x || x + 64 <= c)
    requires n == m'[c := x][x + PARENT := par][x + FD := x][x + BK := x]
          || n == m'[x + PARENT := par][x + FD := x][x + BK := x][c := x]
    ensures Hangs(m, n, x, c, par, i)
  {
  }

  lemma ChainWrites(m: Mem, m': Mem, n: Mem, x: int, h: int, f: int, i: int)
    requires Prepared(m, m', x, i) && Far(h, x) && Far(f, x)
    requires n == m'[f + BK := x][h + FD := x][x + FD := f][x + BK := h][x + PARENT := 0]
    ensures Chains(m, n, x, h, f, i)
  {
  }

  /** The words of a binned chunk are the same before and after those writes. */
  lemma PreparedReads(m: Mem, m': Mem, x: int, i: int, y: int)
    requires Prepared(m, m', x, i) && Far(x, y)
    ensures SameNode(m, m', y) && Rd(m', y + HEAD) == Rd(m, y + HEAD)
  {
  }

  lemma SlotFar(sz: map<int, int>, x: int, s: int, i: nat)
    requires Fresh(sz, x, s) && s >= 256 && i < NBINS
    ensures TreeBinAt(i) < x || x + 64 <= TreeBinAt(i)
  {
  }

  /** What one turn of the search loop reads at the node at height `w`. */
  lemma SearchReads(m: Mem, m': Mem, smallmap: bv32, treemap: bv32, b: Bins, x: int, s: int, w: nat, least: int)
    requires BinsReady(m, smallmap, treemap, b, least) && LargeSize(s) && Fresh(b.sz, x, s)
    requires Prepared(m, m', x, TreeIndex(s)) && Searching(b.trie, b.sz, s, w)
    ensures var t, p := b.trie, Path(s, w);
      var h, bit := Head(t, p), Sh(s, w - 1) % 2;
      && h > 0 && h >= least && Far(h, x) && |t.at[p]| > 0
      && ChunkSize(Rd(m', h + HEAD)) == SizeAt(t, b.sz, p)
      && Rd(m', h + FD) == Rd(m, h + FD)
      && Rd(m', h + CHILD + 8 * bit) == ChildWord(t, p, bit)
  {
    hide Marked, SmallOk, Fresh, TreeIndex, Sh, SizeAt, TreeOk, Apart, Far, ParentWord, ChildWord, NoneAbove, Width,
         Prepared, SameNode;
    var p := Path(s, w);
    var h := Head(b.trie, p);
    Unfold(m, smallmap, treemap, b);
    NodeWords(m, treemap, b, p);
    FreshFar(b.sz, x, s, h);
    FarSym(h, x);
    assert Far(x, h) by { FarOf(x, h); }
    PreparedReads(m, m', x, TreeIndex(s), h);
    NodeBits(m, m', h);
  }

  lemma FarOf(x: int, y: int)
    requires x + 256 <= y || y + 256 <= x
    ensures Far(x, y)
  {
  }

  lemma NodeBits(m: Mem, n: Mem, h: int)
    requires SameNode(m, n, h)
    ensures Rd(n, h + FD) == Rd(m, h + FD) && Rd(n, h + CHILD) == Rd(m, h + CHILD)
    ensures Rd(n, h + CHILD + 8) == Rd(m, h + CHILD + 8)
  {
  }

  /** The successor in the chain at `p`, which the chaining writes touch. */
  lemma ChainReads(m: Mem, smallmap: bv32, treemap: bv32, b: Bins, x: int, s: int, p: Pos, least: int)
    requires BinsReady(m, smallmap, treemap, b, least) && s >= 256 && Fresh(b.sz, x, s) && p in b.trie.at
    ensures var f := Rd(m, Head(b.trie, p) + FD); f >= least && Far(f, x)
  {
    hide Marked, SmallOk, Fresh, Apart, Linked, Far, SlotOk, WellFormed, Located, HeadOk, TailOk, Distinct;
    var t := b.trie;
    assert NodeOk(m, t, p);
    IsLocated(t, b.sz);
    FirstNext(m, t.at[p]);
    var f := Rd(m, Head(t, p) + FD);
    MemberAt(t, b.sz, p, f);
    FreshFar(b.sz, x, s, f);
    FarOf(f, x);
  }

  lemma NextShl(s: nat, n: nat)
    ensures Shl(s, n + 1) == (2 * Shl(s, n)) % W64
  {
  }

  lemma PreparedIs(m: Mem, n: Mem, x: int, i: int)
    requires n == m[x + INDEX := i][x + CHILD := 0][x + CHILD + 8 := 0]
    ensures Prepared(m, n, x, i)
  {
  }

  lemma EmptyReady(m: Mem, smallmap: bv32, treemap: bv32, b: Bins, s: int, least: int)
    requires BinsReady(m, smallmap, treemap, b, least) && LargeSize(s) && TreeIndex(s) < NBINS
    requires !Marked(treemap, TreeIndex(s))
    ensures var p := Root(TreeIndex(s));
      && p.i == TreeIndex(s) && p.w == Width(p.i)
      && p == Path(s, p.w) && CanHang(b.trie, p) && (forall y | y in b.trie.loc :: y in b.sz && b.sz[y] != s)
      && SlotAddr(b.trie, p) == TreeBinAt(TreeIndex(s)) && ParentWord(b.trie, p) == TreeBinAt(TreeIndex(s))
      && MarkIf(p.w == Width(p.i), treemap, p.i) == Mark(treemap, p.i)
  {
    hide Marked, Mark, SmallOk, TreeOk, SlotAddr, ParentWord, CanHang, Path, Width, RootQ, TreeIndex;
    EmptyBin(m, treemap, b, s);
  }

  lemma StartReady(m: Mem, m': Mem, smallmap: bv32, treemap: bv32, b: Bins, x: int, s: int, least: int)
    requires BinsReady(m, smallmap, treemap, b, least) && LargeSize(s) && TreeIndex(s) < NBINS
    requires Marked(treemap, TreeIndex(s))
    requires Prepared(m, m', x, TreeIndex(s)) && Fresh(b.sz, x, s)
    ensures var i := TreeIndex(s);
      && Searching(b.trie, b.sz, s, Width(i))
      && Rd(m', TreeBinAt(i)) == Head(b.trie, Path(s, Width(i)))
      && Width(i) <= 64 && LeftShiftForTreeIndex(i) == 64 - Width(i)
  {
    hide Marked, SmallOk, TreeOk, Path, Searching, TreeIndex, Fresh;
    SearchStart(m, treemap, b, s);
    SlotFar(b.sz, x, s, TreeIndex(s));
  }

  lemma StepReady(m: Mem, smallmap: bv32, treemap: bv32, b: Bins, s: int, w: nat, least: int)
    requires BinsReady(m, smallmap, treemap, b, least) && Searching(b.trie, b.sz, s, w) && w <= 64
    requires SizeAt(b.trie, b.sz, Path(s, w)) != s
    ensures w > 4
    ensures var t, h, bit := b.trie, Head(b.trie, Path(s, w)), Shl(s, 64 - w) / 0x8000_0000_0000_0000;
      && bit == Sh(s, w - 1) % 2
      && Shl(s, 64 - (w - 1)) == (2 * Shl(s, 64 - w)) % W64
      && (ChildWord(t, Path(s, w), bit) != 0 ==>
            Searching(t, b.sz, s, w - 1) && ChildWord(t, Path(s, w), bit) == Head(t, Path(s, w - 1)))
      && (ChildWord(t, Path(s, w), bit) == 0 ==>
            var p := Path(s, w - 1);
            && CanHang(t, p) && p == Path(s, p.w) && p.i == TreeIndex(s)
            && (forall y | y in t.loc :: y in b.sz && b.sz[y] != s)
            && SlotAddr(t, p) == h + CHILD + 8 * bit && ParentWord(t, p) == h
            && p.i < NBINS && MarkIf(p.w == Width(p.i), treemap, p.i) == treemap)
  {
    hide Marked, Mark, SmallOk, TreeOk, Searching, TreeIndex, Sh, Shl, SizeAt, SlotAddr, ParentWord, ChildWord, Width,
         RootQ, WellFormed, CanHang;
    assert WellFormed(b.trie, b.sz) by { UnfoldTree(m, treemap, b); }
    SearchStep(b.trie, b.sz, s, w);
    SearchSize(b.trie, b.sz, s, w);
    SignBit(s, 64 - w);
    NextShl(s, 64 - w);
    ChildReads(b, Path(s, w), Sh(s, w - 1) % 2);
    if Path(s, w - 1) !in b.trie.at {
      assert Path(s, w - 1).i < NBINS by { PosBin(b.trie, Path(s, w - 1)); }
      SlotBelow(b.trie, s, w);
    }
  }

  lemma SearchSize(t: Trie, sz: map<int, int>, s: int, w: nat)
    requires WellFormed(t, sz) && Searching(t, sz, s, w)
    ensures LargeSize(s) && Path(s, w) in t.at && |t.at[Path(s, w)]| > 0 && w <= Width(TreeIndex(s))
  {
    hide Path, TreeIndex, Width;
  }

  /** The memory after `x` has been hung in the slot at `c`. */
  function Hung(m: Mem, x: int, c: int, par: int): Mem {
    m[c := x][x + PARENT := par][x + FD := x][x + BK := x]
  }

  /** The memory after `x` has been chained between `h` and `f`. */
  function ChainedTo(m: Mem, x: int, h: int, f: int): Mem {
    m[f + BK := x][h + FD := x][x + FD := f][x + BK := h][x + PARENT := 0]
  }

  lemma FirstOfBin(m: Mem, m': Mem, n: Mem, smallmap: bv32, treemap: bv32, b: Bins, x: int, s: int, least: int)
    requires BinsReady(m, smallmap, treemap, b, least) && LargeSize(s) && Fresh(b.sz, x, s) && x >= least
    requires ChunkSize(Rd(m, x + HEAD)) == s
    requires TreeIndex(s) < NBINS && !Marked(treemap, TreeIndex(s)) && Prepared(m, m', x, TreeIndex(s))
    requires n == Hung(m', x, TreeBinAt(TreeIndex(s)), TreeBinAt(TreeIndex(s)))
    ensures var c := AddLarge(b, x, s, AddLeaf(b.trie, x, Root(TreeIndex(s))));
      BinsReady(n, smallmap, Mark(treemap, TreeIndex(s)), c, least) && Within(m, n, c.sz)
  {
    hide BinsReady, Marked, Mark, Within, Path, TreeIndex, Width, RootQ, CanHang, Prepared, SlotAddr, ParentWord,
         Hangs, Fresh;
    var i, p := TreeIndex(s), Root(TreeIndex(s));
    EmptyReady(m, smallmap, treemap, b, s, least);
    SlotFar(b.sz, x, s, i);
    HangWrites(m, m', n, x, TreeBinAt(i), TreeBinAt(i), i);
    LeafStep(m, n, smallmap, treemap, b, x, s, p, least);
  }

  /** The search has found the slot below the node at height `w` empty. */
  lemma FoundSlot(m: Mem, m': Mem, n: Mem, smallmap: bv32, treemap: bv32, b: Bins, x: int, s: int, w: nat, least: int)
    requires BinsReady(m, smallmap, treemap, b, least) && LargeSize(s) && Fresh(b.sz, x, s) && x >= least
    requires ChunkSize(Rd(m, x + HEAD)) == s
    requires Prepared(m, m', x, TreeIndex(s)) && Searching(b.trie, b.sz, s, w) && w <= 64
    requires SizeAt(b.trie, b.sz, Path(s, w)) != s
    requires var h, bit := Head(b.trie, Path(s, w)), Shl(s, 64 - w) / 0x8000_0000_0000_0000;
      Rd(m', h + CHILD + 8 * bit) == 0 && n == Hung(m', x, h + CHILD + 8 * bit, h)
    ensures w > 0
    ensures var c := AddLarge(b, x, s, AddLeaf(b.trie, x, Path(s, w - 1)));
      BinsReady(n, smallmap, treemap, c, least) && Within(m, n, c.sz)
  {
    hide BinsReady, Marked, Mark, MarkIf, Within, Path, TreeIndex, Width, RootQ, CanHang, Prepared, SlotAddr,
         ParentWord, ChildWord, Hangs, Fresh, Searching, SizeAt, Sh, Shl;
    StepReady(m, smallmap, treemap, b, s, w, least);
    SearchReads(m, m', smallmap, treemap, b, x, s, w, least);
    var h, bit := Head(b.trie, Path(s, w)), Sh(s, w - 1) % 2;
    HangWrites(m, m', n, x, h + CHILD + 8 * bit, h, TreeIndex(s));
    LeafStep(m, n, smallmap, treemap, b, x, s, Path(s, w - 1), least);
  }

  /** The search has found a node of the same size. */
  lemma FoundSize(m: Mem, m': Mem, n: Mem, smallmap: bv32, treemap: bv32, b: Bins, x: int, s: int, w: nat, least: int)
    requires BinsReady(m, smallmap, treemap, b, least) && LargeSize(s) && Fresh(b.sz, x, s) && x >= least
    requires ChunkSize(Rd(m, x + HEAD)) == s
    requires Prepared(m, m', x, TreeIndex(s)) && Searching(b.trie, b.sz, s, w)
    requires SizeAt(b.trie, b.sz, Path(s, w)) == s
    requires var h := Head(b.trie, Path(s, w)); n == ChainedTo(m', x, h, Rd(m', h + FD))
    ensures Path(s, w) in b.trie.at && |b.trie.at[Path(s, w)]| > 0
    ensures var c := AddLarge(b, x, s, AddChained(b.trie, x, Path(s, w)));
      BinsReady(n, smallmap, treemap, c, least) && Within(m, n, c.sz)
  {
    hide Marked, Within, TreeIndex, Width, RootQ, Prepared, ChildWord, Chains, Fresh, SizeAt, Sh, BinsOk, SizeTags,
         AllAbove, NoneAbove, Far;
    SearchReads(m, m', smallmap, treemap, b, x, s, w, least);
    var h := Head(b.trie, Path(s, w));
    ChainReads(m, smallmap, treemap, b, x, s, Path(s, w), least);
    ChainWrites(m, m', n, x, h, Rd(m, h + FD), TreeIndex(s));
    ChainStep(m, n, smallmap, treemap, b, x, s, Path(s, w), least);
  }

  /** The checks that one turn of the search loop makes. */
  lemma SearchChecks(m: Mem, m': Mem, smallmap: bv32, treemap: bv32, b: Bins, x: int, s: int, w: nat, least: int)
    requires BinsReady(m, smallmap, treemap, b, least) && LargeSize(s) && Fresh(b.sz, x, s) && w <= 64
    requires Prepared(m, m', x, TreeIndex(s)) && Searching(b.trie, b.sz, s, w)
    ensures var t, h, bit := b.trie, Head(b.trie, Path(s, w)), Shl(s, 64 - w) / 0x8000_0000_0000_0000;
      var c := Rd(m', h + CHILD + 8 * bit);
      && h >= least && h > 0 && ChunkSize(Rd(m', h + HEAD)) == SizeAt(t, b.sz, Path(s, w))
      && (SizeAt(t, b.sz, Path(s, w)) == s ==> Rd(m', h + FD) >= least)
      && (SizeAt(t, b.sz, Path(s, w)) != s ==>
            && w > 4 && Shl(s, 64 - (w - 1)) == (2 * Shl(s, 64 - w)) % W64
            && (c != 0 ==> Searching(t, b.sz, s, w - 1) && c == Head(t, Path(s, w - 1))))
  {
    hide BinsReady, Marked, Mark, MarkIf, Path, TreeIndex, Width, RootQ, CanHang, Prepared, SlotAddr, ParentWord,
         ChildWord, Fresh, Searching, SizeAt, Sh, Shl, Far;
    SearchReads(m, m', smallmap, treemap, b, x, s, w, least);
    if SizeAt(b.trie, b.sz, Path(s, w)) != s {
      StepReady(m, smallmap, treemap, b, s, w, least);
    } else {
      assert Path(s, w) in b.trie.at by { SearchPlace(b.trie, b.sz, s, w); }
      ChainReads(m, smallmap, treemap, b, x, s, Path(s, w), least);
    }
  }

  lemma SearchPlace(t: Trie, sz: map<int, int>, s: int, w: nat)
    requires Searching(t, sz, s, w)
    ensures LargeSize(s) && Path(s, w) in t.at
  {
    hide TreeIndex, Width, Sh;
  }

  // ----- Relinking, the last step of unlink_large_chunk

  /** A trie whose node `x` at place `p` is about to be replaced or dropped; its chain plays no part. */
  ghost predicate RelinkReady(m: Mem, treemap: bv32, t: Trie, sz: map<int, int>, p: Pos, x: int) {
    && Apart(sz) && Located(t, sz) && Shaped(t) && p in t.at && Head(t, p) == x
    && HeadOk(m, t, p, x) && Rd(m, x + INDEX) == p.i
    && (forall q | q in t.at && q != p :: NodeOk(m, t, q))
    && (forall i | 0 <= i < NBINS :: SlotOk(m, treemap, t, i))
  }

  /** The words that lead to `x`: a bin slot, or one of the child words of its parent. */
  ghost predicate LeadsTo(m: Mem, x: int, xp: int, slot: int, root: bool, i: nat)
    requires i < NBINS
  {
    if root then
      slot == TreeBinAt(i) && Rd(m, TreeBinAt(i)) == x
    else
      Rd(m, TreeBinAt(i)) != x && slot == if Rd(m, xp + CHILD) == x then xp + CHILD else xp + CHILD + 8
  }

  lemma RootLeads(m: Mem, treemap: bv32, t: Trie, sz: map<int, int>, p: Pos, x: int)
    requires RelinkReady(m, treemap, t, sz, p, x) && p.w == Width(p.i)
    ensures p.i < NBINS && LeadsTo(m, x, Rd(m, x + PARENT), SlotAddr(t, p), true, p.i)
  {
    hide Marked, Apart, Located, RootQ, NodeOk, HeadOk;
    PlaceBin(t, p);
    assert SlotOk(m, treemap, t, p.i);
    SlotIsHead(t, p);
  }

  lemma SlotIsHead(t: Trie, p: Pos)
    requires PosOk(p) && p.w == Width(p.i)
    ensures SlotWord(t, p.i) == Head(t, p)
  {
  }

  lemma InnerLeads(m: Mem, treemap: bv32, t: Trie, sz: map<int, int>, p: Pos, x: int)
    requires RelinkReady(m, treemap, t, sz, p, x) && p.w < Width(p.i)
    ensures p.i < NBINS && LeadsTo(m, x, Rd(m, x + PARENT), SlotAddr(t, p), false, p.i)
    ensures Rd(m, x + PARENT) in sz
  {
    hide Marked, Apart, Located, RootQ, Width, ChainOk, ParentWord, ChildWord;
    PlaceBin(t, p);
    var q := Up(p);
    assert NodeOk(m, t, q);
    SlotInHead(t, p);
    ParentIs(t, p);
    HeadIn(t, sz, q);
    assert SlotOk(m, treemap, t, p.i);
    OnlyHead(t, sz, p, Root(p.i));
    ChildIs(t, sz, p, 0);
    ChildIs(t, sz, p, 1);
  }

  lemma ParentIs(t: Trie, p: Pos)
    requires p.w < Width(p.i) && Up(p) in t.at && |t.at[Up(p)]| > 0
    ensures ParentWord(t, p) == Head(t, Up(p))
  {
    hide Width;
  }

  /** A chunk heads one place only. */
  lemma OnlyHead(t: Trie, sz: map<int, int>, p: Pos, q: Pos)
    requires Located(t, sz) && p in t.at && q != p && Apart(sz)
    ensures Head(t, q) != Head(t, p)
  {
    if q in t.at {
      assert t.at[q][0] in t.loc && t.at[p][0] in t.loc;
    } else {
      PositiveAt(t, sz, p, 0);
    }
  }

  /** The child word of the parent of `p` on side `c` is the head of `p` exactly on `p`'s own side. */
  lemma ChildIs(t: Trie, sz: map<int, int>, p: Pos, c: nat)
    requires Located(t, sz) && Apart(sz) && p in t.at && c < 2
    ensures ChildWord(t, Up(p), c) == Head(t, p) <==> c == p.q % 2
  {
    hide Located, Apart;
    ChildHead(t, sz, Up(p), c);
    ChildUp(Up(p), c, p);
    HeadIn(t, sz, p);
    PositiveAt(t, sz, p, 0);
    if c != p.q % 2 && Child(Up(p), c) in t.at {
      OnlyHead(t, sz, p, Child(Up(p), c));
    }
  }

  ghost predicate ChildOk(c: int, x: int, least: int) {
    c == 0 || (c >= least && Far(c, x))
  }

  /** Where the words of `x` lead, and that relinking does not disturb them. */
  lemma RelinkReads(m: Mem, treemap: bv32, t: Trie, sz: map<int, int>, p: Pos, x: int, least: int)
    requires RelinkReady(m, treemap, t, sz, p, x) && AllAbove(sz, least)
    ensures p.i < NBINS && LeadsTo(m, x, Rd(m, x + PARENT), SlotAddr(t, p), p.w == Width(p.i), p.i)
    ensures p.w != Width(p.i) ==> Rd(m, x + PARENT) >= least
    ensures Rd(m, x + PARENT) == ParentWord(t, p) && ParentWord(t, p) > 0 && Rd(m, x + INDEX) == p.i
    ensures SlotAddr(t, p) < x || x + 64 <= SlotAddr(t, p)
    ensures ChildOk(Rd(m, x + CHILD), x, least) && ChildOk(Rd(m, x + CHILD + 8), x, least)
  {
    hide Marked, Apart, Located, NodeOk, SlotOk, Width, RootQ, SlotAddr, ParentWord, ChildWord, LeadsTo, Far;
    PlaceBin(t, p);
    assert PosOk(p);
    ParentSet(t, sz, p);
    if p.w == Width(p.i) {
      RootLeads(m, treemap, t, sz, p, x);
    } else {
      InnerLeads(m, treemap, t, sz, p, x);
    }
    HeadIn(t, sz, p);
    SlotAwayHead(t, sz, p);
    ChildAbove(t, sz, p, 0, least);
    ChildAbove(t, sz, p, 1, least);
  }

  lemma SlotAwayHead(t: Trie, sz: map<int, int>, p: Pos)
    requires Apart(sz) && Located(t, sz) && Shaped(t) && p in t.at
    ensures var x := Head(t, p); SlotAddr(t, p) < x || x + 64 <= SlotAddr(t, p)
  {
    hide Apart, Width, RootQ, SlotAddr;
    assert PosOk(p);
    HeadPlace(t, sz, p);
    SlotAway(t, sz, p, Head(t, p));
    if p.w < Width(p.i) {
      HeadPlace(t, sz, Up(p));
    }
  }

  lemma HeadPlace(t: Trie, sz: map<int, int>, q: Pos)
    requires Located(t, sz) && q in t.at
    ensures var h := Head(t, q); h in t.loc && t.loc[h] == q && h in sz && sz[h] >= 256
  {
    assert t.at[q][0] in t.loc;
  }

  lemma ChildAbove(t: Trie, sz: map<int, int>, p: Pos, c: nat, least: int)
    requires Apart(sz) && Located(t, sz) && AllAbove(sz, least) && p in t.at && c < 2 && p.w > 0
    ensures ChildOk(ChildWord(t, p, c), Head(t, p), least)
  {
    hide Apart, Located;
    ChildHead(t, sz, p, c);
    if Child(p, c) in t.at {
      HeadIn(t, sz, p);
      HeadIn(t, sz, Child(p, c));
      OnlyHead(t, sz, p, Child(p, c));
      FarApart(sz, Head(t, p), Head(t, Child(p, c)));
    }
  }

  /** The memory after the parent and children of `x` have been linked to `r`. */
  function Relinked(m: Mem, x: int, r: int, slot: int, xp: int): Mem {
    var c0, c1 := Rd(m, x + CHILD), Rd(m, x + CHILD + 8);
    var m1 := m[slot := r][r + PARENT := xp];
    var m2 := if c0 != 0 then m1[r + CHILD := c0][c0 + PARENT := r] else m1;
    if c1 != 0 then m2[r + CHILD + 8 := c1][c1 + PARENT := r] else m2
  }

  lemma RelinkWrites(m: Mem, x: int, r: int, slot: int, xp: int)
    ensures Reheads(m, Relinked(m, x, r, slot, xp), x, r, slot, xp)
  {
  }

  // ----- unlink_large_chunk, case by case

  lemma LargeRemoved(m: Mem, n: Mem, smallmap: bv32, treemap': bv32, b: Bins, c: Bins, x: int, least: int)
    requires Apart(b.sz) && SizeTags(m, b.sz) && AllAbove(b.sz, least)
    requires x in b.sz && b.sz[x] >= 256
    requires BinsOk(n, smallmap, treemap', c) && c.sz == b.sz - {x} && TreeOnly(m, n, b.sz, x)
    ensures BinsReady(n, smallmap, treemap', c, least) && Within(m, n, b.sz)
  {
    hide BinsOk, Apart, SizeTags, TreeOnly, Within;
    TreeWithin(m, n, b.sz, x, b.sz);
    SizeTagsLess(m, b.sz, x);
    WithinSizes(m, n, b.sz, c.sz);
  }

  /** The chain links around a chunk that has company in its chain. */
  lemma ChainLinks(m: Mem, smallmap: bv32, treemap: bv32, b: Bins, p: Pos, k: nat, least: int)
    requires BinsReady(m, smallmap, treemap, b, least) && p in b.trie.at && k < |b.trie.at[p]| && |b.trie.at[p]| > 1
    ensures var x := b.trie.at[p][k];
      var f, e := Rd(m, x + FD), Rd(m, x + BK);
      && f >= least && e >= least && e != 0 && Rd(m, f + BK) == x && Rd(m, e + FD) == x && f + BK != e + FD && Far(e, x)
  {
    hide Marked, SmallOk, Apart, Linked, Far, SlotOk, WellFormed, Located, HeadOk, TailOk, Distinct, Spaced;
    var t := b.trie;
    var r := t.at[p];
    assert NodeOk(m, t, p);
    IsLocated(t, b.sz);
    ChainMembersAt(m, t, b.sz, p);
    Neighbours(m, r, k);
    MemberAt(t, b.sz, p, r[Nx(|r|, k)]);
    MemberAt(t, b.sz, p, r[Pv(|r|, k)]);
    PositiveAt(t, b.sz, p, Pv(|r|, k));
    FarOf(r[Pv(|r|, k)], r[k]);
  }

  lemma OutIs(m: Mem, e: int, f: int)
    requires f + BK != e + FD
    ensures LinksOut(m, m[f + BK := e][e + FD := f], e, f)
  {
  }

  /** A chunk chained behind a node: the chain closes over it. */
  lemma TailStep(m: Mem, n: Mem, smallmap: bv32, treemap: bv32, b: Bins, p: Pos, k: nat, least: int)
    requires BinsReady(m, smallmap, treemap, b, least) && p in b.trie.at && 0 < k < |b.trie.at[p]|
    requires var x := b.trie.at[p][k]; LinksOut(m, n, Rd(m, x + BK), Rd(m, x + FD))
    ensures var x := b.trie.at[p][k];
      && x in b.trie.loc && b.trie.loc[x] == p
      && BinsReady(n, smallmap, treemap, DropLarge(b, x, DropMember(b.trie, x, Without(b.trie.at[p], k))), least)
      && Within(m, n, b.sz)
  {
    hide Marked, SmallOk, Apart, TreeOk, BinsOk, SizeTags, AllAbove, LinksOut, Without, TreeOnly, Within;
    var x := b.trie.at[p][k];
    Unfold(m, smallmap, treemap, b);
    TailRemoved(m, n, smallmap, treemap, b, p, k);
    OutTreeOnly(m, n, treemap, b, p, k);
    LargeRemoved(m, n, smallmap, treemap, b, DropLarge(b, x, DropMember(b.trie, x, Without(b.trie.at[p], k))), x,
                 least);
  }

  lemma OutTreeOnly(m: Mem, n: Mem, treemap: bv32, b: Bins, p: Pos, k: nat)
    requires Apart(b.sz) && TreeOk(m, treemap, b) && p in b.trie.at && k < |b.trie.at[p]| && |b.trie.at[p]| > 1
    requires var x := b.trie.at[p][k]; LinksOut(m, n, Rd(m, x + BK), Rd(m, x + FD))
    ensures var x := b.trie.at[p][k]; x in b.sz && b.sz[x] >= 256 && TreeOnly(m, n, b.sz, x)
  {
    hide Marked, Apart, Linked, SlotOk, WellFormed, Located, HeadOk, TailOk, Distinct, Spaced, LinksOut, TreeOnly,
         OnlyNodes, AtOrFresh;
    var t, sz, r := b.trie, b.sz, b.trie.at[p];
    assert NodeOk(m, t, p);
    IsLocated(t, sz);
    ChainMembersAt(m, t, sz, p);
    Neighbours(m, r, k);
    var f, e := Rd(m, r[k] + FD), Rd(m, r[k] + BK);
    MemberAt(t, sz, p, r[k]);
    MemberAt(t, sz, p, f);
    MemberAt(t, sz, p, e);
    OutOnly(m, n, e, f, r[k]);
    NodesTreeOnly(m, n, t, sz, p, e, f, r[k]);
  }

  /** A node with a chain: after the chain closes, everything is ready for relinking. */
  lemma HeadReady(m: Mem, m': Mem, smallmap: bv32, treemap: bv32, b: Bins, p: Pos, least: int)
    requires BinsReady(m, smallmap, treemap, b, least) && p in b.trie.at && |b.trie.at[p]| > 1
    requires var x := b.trie.at[p][0]; LinksOut(m, m', Rd(m, x + BK), Rd(m, x + FD))
    ensures RelinkReady(m', treemap, b.trie, b.sz, p, b.trie.at[p][0])
  {
    hide Marked, SmallOk, Apart, NodeOk, SlotOk, ChainOk, WideApart, TreeOnly, LinksOut, Remaining, LeavesBehind,
         Located, Shaped, HeadOk, CanMove, TailOk, TreeOk;
    assert TreeOk(m, treemap, b) && Apart(b.sz);
    HeadClosed(m, m', treemap, b, p);
  }

  lemma HeadStep(m: Mem, m': Mem, n: Mem, smallmap: bv32, treemap: bv32, b: Bins, p: Pos, least: int)
    requires BinsReady(m, smallmap, treemap, b, least) && p in b.trie.at && |b.trie.at[p]| > 1
    requires var x := b.trie.at[p][0];
      && LinksOut(m, m', Rd(m, x + BK), Rd(m, x + FD))
      && Reheads(m', n, x, Rd(m, x + BK), SlotAddr(b.trie, p), ParentWord(b.trie, p))
    ensures var x := b.trie.at[p][0];
      && x in b.trie.loc && b.trie.loc[x] == p
      && BinsReady(n, smallmap, treemap, DropLarge(b, x, DropMember(b.trie, x, Remaining(b.trie.at[p]))), least)
      && Within(m, n, b.sz)
  {
    hide Marked, SmallOk, Apart, TreeOk, BinsOk, SizeTags, AllAbove, LinksOut, Remaining, TreeOnly, Within, Reheads,
         SlotAddr, ParentWord, ReheadReady, ChainOk, WideApart, LeavesBehind, NodeOk, SlotOk, TailOk;
    var x := b.trie.at[p][0];
    Unfold(m, smallmap, treemap, b);
    HeadRemoved(m, m', n, smallmap, treemap, b, p);
    HeadClosed(m, m', treemap, b, p);
    ReheadTreeOnly(m', n, b.trie, b.sz, p, Remaining(b.trie.at[p]), x);
    TreeOnlyTwice(m, m', n, b.sz, x);
    OutTreeOnly(m, m', treemap, b, p, 0);
    LargeRemoved(m, n, smallmap, treemap, b, DropLarge(b, x, DropMember(b.trie, x, Remaining(b.trie.at[p]))), x, least);
  }

  /** A node alone at its place, with nothing below. */
  lemma LeafReady(m: Mem, smallmap: bv32, treemap: bv32, b: Bins, x: int, p: Pos, least: int)
    requires BinsReady(m, smallmap, treemap, b, least) && p in b.trie.at && Head(b.trie, p) == x
    ensures RelinkReady(m, treemap, b.trie, b.sz, p, x)
  {
    hide Marked, SmallOk, Apart, SlotOk, Linked, Distinct, TailOk, Keyed, Unique, Chained, Complete, Placed, HeadOk;
    IsLocated(b.trie, b.sz);
    NodeWords(m, treemap, b, p);
    assert NodeOk(m, b.trie, p);
  }

  lemma LeafDropped(m: Mem, n: Mem, smallmap: bv32, treemap: bv32, b: Bins, x: int, p: Pos, least: int)
    requires BinsReady(m, smallmap, treemap, b, least) && p in b.trie.at && b.trie.at[p] == [x] && Childless(b.trie, p)
    requires n == m[SlotAddr(b.trie, p) := 0]
    ensures p.i < NBINS && x in b.trie.loc && b.trie.loc[x] == p
    ensures BinsReady(n, smallmap, ClearIf(p.w == Width(p.i), treemap, p.i), DropLarge(b, x, DropLeaf(b.trie, x)),
                      least)
    ensures Within(m, n, b.sz)
  {
    hide Marked, SmallOk, Apart, TreeOk, BinsOk, SizeTags, AllAbove, TreeOnly, Within, SlotAddr, Childless, Width,
         RootQ, ClearIf, WellFormed, Located;
    Unfold(m, smallmap, treemap, b);
    assert Zeroes(m, n, SlotAddr(b.trie, p));
    LeafRemoved(m, n, smallmap, treemap, b, x, p);
    assert WellFormed(b.trie, b.sz) by { UnfoldTree(m, treemap, b); }
    IsLocated(b.trie, b.sz);
    WfShaped(b.trie, b.sz);
    PlaceBin(b.trie, p);
    MemberAt(b.trie, b.sz, p, x);
    ZeroTreeOnly(m, n, b.trie, b.sz, p, x);
    LargeRemoved(m, n, smallmap, ClearIf(p.w == Width(p.i), treemap, p.i), b, DropLarge(b, x, DropLeaf(b.trie, x)), x,
                 least);
  }

  /** `q` is `p` or an occupied place below it. */
  ghost predicate AtOrBelow(t: Trie, q: Pos, p: Pos) {
    q in t.at && (q == p || Below(q, p))
  }

  /** The two child words of a node, and where following one of them leads. */
  lemma WalkReads(m: Mem, smallmap: bv32, treemap: bv32, b: Bins, q: Pos, p: Pos, least: int)
    requires BinsReady(m, smallmap, treemap, b, least) && AtOrBelow(b.trie, q, p)
    ensures q.w > 0
    ensures var t, h := b.trie, Head(b.trie, q);
      && h > 0 && h >= least
      && (forall c: nat | c < 2 ::
            && (Rd(m, h + CHILD + 8 * c) != 0 <==> Child(q, c) in t.at)
            && (Child(q, c) in t.at ==>
                  && AtOrBelow(t, Child(q, c), p) && Child(q, c) != p && Below(Child(q, c), p)
                  && Rd(m, h + CHILD + 8 * c) == Head(t, Child(q, c))
                  && SlotAddr(t, Child(q, c)) == h + CHILD + 8 * c))
      && (Rd(m, h + CHILD) == 0 && Rd(m, h + CHILD + 8) == 0 ==> Childless(t, q))
  {
    hide Marked, SmallOk, Apart, TreeOk, SizeTags, ParentWord, ChildWord, WellFormed, SlotAddr, Below, Width, RootQ;
    NodeWords(m, treemap, b, q);
    UnfoldTree(m, treemap, b);
    forall c: nat | c < 2
      ensures Rd(m, Head(b.trie, q) + CHILD + 8 * c) == ChildWord(b.trie, q, c)
      ensures ChildWord(b.trie, q, c) != 0 <==> Child(q, c) in b.trie.at
      ensures Child(q, c) in b.trie.at ==> ChildWord(b.trie, q, c) == Head(b.trie, Child(q, c))
      ensures Below(Child(q, c), p) && Child(q, c) != p
      ensures SlotAddr(b.trie, Child(q, c)) == Head(b.trie, q) + CHILD + 8 * c
    {
      ChildReads(b, q, c);
      StepDownBelow(q, p, c);
      ChildSlot(b.trie, q, c);
    }
  }

  lemma StepDownBelow(q: Pos, p: Pos, c: nat)
    requires (q == p || Below(q, p)) && q.w > 0 && c < 2
    ensures Below(Child(q, c), p) && Child(q, c) != p
  {
    if q == p {
      ChildBelow(p, c);
    } else {
      BelowStep(q, p, c);
    }
  }

  lemma ChildSlot(t: Trie, q: Pos, c: nat)
    requires PosOk(q) && q.w > 0 && c < 2
    ensures SlotAddr(t, Child(q, c)) == Head(t, q) + CHILD + 8 * c
  {
    hide RootQ;
    UpOfChild(q, c);
  }

  /** A leaf below `x` has come off: everything is ready for putting it in the place of `x`. */
  lemma InnerReady(m: Mem, m': Mem, smallmap: bv32, treemap: bv32, b: Bins, x: int, p: Pos, l: Pos, least: int)
    requires BinsReady(m, smallmap, treemap, b, least) && x in b.trie.loc && b.trie.loc[x] == p
    requires CanReplace(b.trie, x, l)
    requires m' == m[SlotAddr(b.trie, l) := 0]
    ensures var t := Vacated(b.trie, l);
      && RelinkReady(m', treemap, t, b.sz, p, x)
      && SlotAddr(t, p) == SlotAddr(b.trie, p) && ParentWord(t, p) == ParentWord(b.trie, p)
  {
    hide Marked, SmallOk, Apart, NodeOk, SlotOk, ChainOk, WideApart, TreeOnly, Located, Shaped, HeadOk, CanMove,
         TreeOk, Vacated, SlotAddr, ParentWord, Below, Childless, SizeTags, AllAbove;
    var t := b.trie;
    assert TreeOk(m, treemap, b) && Apart(b.sz);
    assert Zeroes(m, m', SlotAddr(t, l));
    LeafTaken(m, m', treemap, b, x, p, l);
    ReadyPlace(m', Vacated(t, l), b.sz, p, t.at[l]);
    AboveVacated(t, l, p);
  }

  /** The leaf that will take the place of `x`. */
  lemma LeafReads(m: Mem, smallmap: bv32, treemap: bv32, b: Bins, x: int, p: Pos, l: Pos, least: int)
    requires BinsReady(m, smallmap, treemap, b, least) && x in b.trie.loc && b.trie.loc[x] == p && l in b.trie.at
    requires l != p
    ensures var r := Head(b.trie, l); r > 0 && r >= least && Far(r, x)
  {
    hide Marked, SmallOk, Apart, Located, TreeOk, SizeTags, Shaped, Keyed, Unique, Chained, Complete;
    var t := b.trie;
    UnfoldTree(m, treemap, b);
    IsLocated(t, b.sz);
    HeadPlace(t, b.sz, l);
    PositiveHead(t, b.sz, l);
    assert x in t.at[p];
    MemberAt(t, b.sz, p, x);
    FarApart(b.sz, Head(t, l), x);
    FarOf(Head(t, l), x);
  }

  lemma PositiveHead(t: Trie, sz: map<int, int>, q: Pos)
    requires Apart(sz) && Located(t, sz) && q in t.at
    ensures Head(t, q) > 0
  {
    hide Apart;
    PositiveAt(t, sz, q, 0);
  }

  lemma InnerStep(m: Mem, m': Mem, n: Mem, smallmap: bv32, treemap: bv32, b: Bins, x: int, p: Pos, l: Pos, least: int)
    requires BinsReady(m, smallmap, treemap, b, least) && x in b.trie.loc && b.trie.loc[x] == p
    requires CanReplace(b.trie, x, l)
    requires m' == m[SlotAddr(b.trie, l) := 0]
    requires Reheads(m', n, x, Head(b.trie, l), SlotAddr(b.trie, p), ParentWord(b.trie, p))
    ensures BinsReady(n, smallmap, treemap, DropLarge(b, x, Replace(b.trie, x, l)), least)
    ensures Within(m, n, b.sz)
  {
    hide Marked, SmallOk, Apart, TreeOk, BinsOk, SizeTags, AllAbove, TreeOnly, Within, Reheads, SlotAddr, ParentWord,
         ReheadReady, ChainOk, WideApart, NodeOk, SlotOk, Vacated, Replace, Below, Childless, Located, WellFormed;
    var t := b.trie;
    Unfold(m, smallmap, treemap, b);
    assert Zeroes(m, m', SlotAddr(t, l));
    InnerRemoved(m, m', n, smallmap, treemap, b, x, p, l);
    LeafTaken(m, m', treemap, b, x, p, l);
    AboveVacated(t, l, p);
    HeadOfChain(t, l);
    ReheadTreeOnly(m', n, Vacated(t, l), b.sz, p, t.at[l], x);
    TreeOnlyTwice(m, m', n, b.sz, x);
    assert WellFormed(t, b.sz) by { UnfoldTree(m, treemap, b); }
    IsLocated(t, b.sz);
    assert x in t.at[p];
    MemberAt(t, b.sz, p, x);
    LargeRemoved(m, n, smallmap, treemap, b, DropLarge(b, x, Replace(t, x, l)), x, least);
  }

  lemma HeadOfChain(t: Trie, l: Pos)
    requires l in t.at
    ensures |t.at[l]| > 0 ==> Head(t, l) == t.at[l][0]
  {
  }

  lemma BinsAbove(m: Mem, smallmap: bv32, treemap: bv32, b: Bins, least: int)
    requires BinsReady(m, smallmap, treemap, b, least)
    ensures AllAbove(b.sz, least)
  {
  }

  lemma ChildLower(q: Pos)
    requires q.w > 0
    ensures Child(q, 0).w < q.w && Child(q, 1).w < q.w
  {
  }
}
