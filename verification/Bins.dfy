/** How memory represents the free bins: small bins as rings through their headers, large bins as
    tries whose nodes carry rings of same-size chunks. */
module Bins {
  import opened Memory
  import opened Bits
  import opened BinMap
  import opened Ring
  import opened Tries

  /** The binned chunks: `sz` gives the size of each, `small` the chunks of each small bin in fd
      order from the header, `trie` the places of the large ones. */
  datatype Bins = Bins(sz: map<int, int>, small: seq<seq<int>>, trie: Trie)

  const EMPTY: Bins := Bins(map[], seq(NBINS, i => []), Trie(map[], map[]))

  // ----- Where binned chunks may lie

  ghost predicate ClearOfState(x: int, s: int) {
    x + s <= STATE || STATE + STATE_SIZE <= x
  }

  /** Binned chunks overlap neither each other nor the malloc_state. */
  ghost predicate Apart(sz: map<int, int>) {
    && (forall x | x in sz :: x > 0 && sz[x] >= 32 && sz[x] % 16 == 0 && ClearOfState(x, sz[x]))
    && (forall x, y | x in sz && y in sz && x != y :: x + sz[x] <= y || y + sz[y] <= x)
  }

  ghost predicate Distinct(r: seq<int>) {
    forall i, j | 0 <= i < j < |r| :: r[i] != r[j]
  }

  // ----- Small bins

  ghost predicate SmallPlaced(b: Bins) {
    && |b.small| == NBINS
    && (forall i, j | 0 <= i < NBINS && 0 <= j < |b.small[i]| ::
          b.small[i][j] in b.sz && b.sz[b.small[i][j]] == 8 * i)
    && (forall i | 0 <= i < NBINS :: Distinct(b.small[i]))
    && (forall x | x in b.sz && b.sz[x] < 256 :: 0 <= b.sz[x] / 8 < NBINS && x in b.small[b.sz[x] / 8])
  }

  ghost predicate SmallBinOk(m: Mem, smallmap: bv32, r: seq<int>, i: nat)
    requires i < NBINS
  {
    && (Marked(smallmap, i) <==> r != [])
    && (r != [] ==> Linked(m, [SmallBinAt(i)] + r))
  }

  // ----- Tries

  /** The word that leads from `p` to its child `c`: zero if there is none. */
  function ChildWord(t: Trie, p: Pos, c: nat): int
    requires c < 2
  {
    if p.w > 0 && Child(p, c) in t.at && |t.at[Child(p, c)]| > 0 then t.at[Child(p, c)][0] else 0
  }

  /** The parent word of the node at `p`: the bin slot for a root. */
  function ParentWord(t: Trie, p: Pos): int {
    if p.w >= Width(p.i) then TreeBinAt(p.i)
    else if Up(p) in t.at && |t.at[Up(p)]| > 0 then t.at[Up(p)][0] else 0
  }

  /** The node's own tree words. */
  ghost predicate HeadOk(m: Mem, t: Trie, p: Pos, h: int) {
    && Rd(m, h + PARENT) == ParentWord(t, p)
    && Rd(m, h + CHILD) == ChildWord(t, p, 0)
    && Rd(m, h + CHILD + 8) == ChildWord(t, p, 1)
  }

  /** Chunks chained behind the node have no tree words of their own. */
  ghost predicate TailOk(m: Mem, x: int) {
    Rd(m, x + PARENT) == 0 && Rd(m, x + CHILD) == 0 && Rd(m, x + CHILD + 8) == 0
  }

  ghost predicate ChainOk(m: Mem, r: seq<int>, i: nat) {
    && Distinct(r)
    && Linked(m, r)
    && (forall j | 0 <= j < |r| :: Rd(m, r[j] + INDEX) == i)
    && (forall j | 1 <= j < |r| :: TailOk(m, r[j]))
  }

  ghost predicate NodeOk(m: Mem, t: Trie, p: Pos) {
    p in t.at && |t.at[p]| > 0 && ChainOk(m, t.at[p], p.i) && HeadOk(m, t, p, t.at[p][0])
  }

  function SlotWord(t: Trie, i: nat): int {
    if Root(i) in t.at && |t.at[Root(i)]| > 0 then t.at[Root(i)][0] else 0
  }

  ghost predicate SlotOk(m: Mem, treemap: bv32, t: Trie, i: nat)
    requires i < NBINS
  {
    && (Marked(treemap, i) <==> Root(i) in t.at)
    && Rd(m, TreeBinAt(i)) == SlotWord(t, i)
  }

  // ----- All bins

  ghost predicate SmallOk(m: Mem, smallmap: bv32, b: Bins) {
    |b.small| == NBINS && SmallPlaced(b) && forall i | 0 <= i < NBINS :: SmallBinOk(m, smallmap, b.small[i], i)
  }

  ghost predicate TreeOk(m: Mem, treemap: bv32, b: Bins) {
    && WellFormed(b.trie, b.sz)
    && (forall p | p in b.trie.at :: NodeOk(m, b.trie, p))
    && (forall i | 0 <= i < NBINS :: SlotOk(m, treemap, b.trie, i))
  }

  ghost predicate BinsOk(m: Mem, smallmap: bv32, treemap: bv32, b: Bins) {
    Apart(b.sz) && SmallOk(m, smallmap, b) && TreeOk(m, treemap, b)
  }

  // ----- Words the bins do not use may change freely

  /** `n` agrees with `m` on the bin arrays and inside every binned chunk. */
  ghost predicate Quiet(m: Mem, n: Mem, sz: map<int, int>) {
    && (forall a | BinArea(a) :: Rd(n, a) == Rd(m, a))
    && (forall x, a | x in sz && x + 16 <= a < x + sz[x] :: Rd(n, a) == Rd(m, a))
  }

  ghost predicate SameNode(m: Mem, n: Mem, x: int) {
    && Rd(n, x + FD) == Rd(m, x + FD) && Rd(n, x + BK) == Rd(m, x + BK)
    && Rd(n, x + CHILD) == Rd(m, x + CHILD) && Rd(n, x + CHILD + 8) == Rd(m, x + CHILD + 8)
    && Rd(n, x + PARENT) == Rd(m, x + PARENT) && Rd(n, x + INDEX) == Rd(m, x + INDEX)
  }

  lemma ChainFrame(m: Mem, n: Mem, r: seq<int>, i: nat)
    requires ChainOk(m, r, i) && forall j | 0 <= j < |r| :: SameNode(m, n, r[j])
    ensures ChainOk(n, r, i)
  {
    Frame(m, n, r);
  }

  lemma NodeFrame(m: Mem, n: Mem, t: Trie, u: Trie, p: Pos)
    requires NodeOk(m, t, p) && p in u.at && u.at[p] == t.at[p]
    requires ParentWord(u, p) == ParentWord(t, p)
    requires ChildWord(u, p, 0) == ChildWord(t, p, 0) && ChildWord(u, p, 1) == ChildWord(t, p, 1)
    requires forall j | 0 <= j < |t.at[p]| :: SameNode(m, n, t.at[p][j])
    ensures NodeOk(n, u, p)
  {
    hide ParentWord, ChildWord, ChainOk;
    ChainFrame(m, n, t.at[p], p.i);
  }

  lemma SmallBinFrame(m: Mem, n: Mem, map': bv32, smallmap: bv32, r: seq<int>, i: nat)
    requires i < NBINS && SmallBinOk(m, smallmap, r, i) && (Marked(map', i) <==> Marked(smallmap, i))
    requires r != [] ==> SameLinks(m, n, [SmallBinAt(i)] + r)
    ensures SmallBinOk(n, map', r, i)
  {
    hide Marked;
    if r != [] {
      Frame(m, n, [SmallBinAt(i)] + r);
    }
  }

  lemma QuietNode(m: Mem, n: Mem, sz: map<int, int>, x: int)
    requires Quiet(m, n, sz) && x in sz && sz[x] >= 256
    ensures SameNode(m, n, x)
  {
  }

  lemma QuietSmall(m: Mem, n: Mem, b: Bins, i: nat)
    requires Quiet(m, n, b.sz) && Apart(b.sz) && SmallPlaced(b) && i < NBINS
    ensures SameLinks(m, n, [SmallBinAt(i)] + b.small[i])
  {
  }

  /** Placement facts about one occupied place, for use with the rest hidden. */
  lemma ChainIn(t: Trie, sz: map<int, int>, p: Pos, j: nat)
    requires WellFormed(t, sz) && p in t.at && j < |t.at[p]|
    ensures var x := t.at[p][j]; x in t.loc && t.loc[x] == p && x in sz && LargeSize(sz[x])
  {
    var x := t.at[p][j];
    assert x in t.loc && t.loc[x] == p;
  }

  lemma QuietKeeps(m: Mem, n: Mem, smallmap: bv32, treemap: bv32, b: Bins)
    requires BinsOk(m, smallmap, treemap, b) && Quiet(m, n, b.sz)
    ensures BinsOk(n, smallmap, treemap, b)
  {
    hide Marked, SmallBinOk, NodeOk, Apart, WellFormed, SmallPlaced, Quiet, SameNode;
    forall i | 0 <= i < NBINS ensures SmallBinOk(n, smallmap, b.small[i], i) {
      QuietSmall(m, n, b, i);
      SmallBinFrame(m, n, smallmap, smallmap, b.small[i], i);
    }
    forall p | p in b.trie.at ensures NodeOk(n, b.trie, p) {
      QuietChain(m, n, b, p);
      NodeFrame(m, n, b.trie, b.trie, p);
    }
    forall i | 0 <= i < NBINS ensures SlotOk(n, treemap, b.trie, i) {
      assert SlotOk(m, treemap, b.trie, i);
      QuietSlot(m, n, b.sz, i);
    }
  }

  lemma QuietSlot(m: Mem, n: Mem, sz: map<int, int>, i: nat)
    requires Quiet(m, n, sz) && i < NBINS
    ensures Rd(n, TreeBinAt(i)) == Rd(m, TreeBinAt(i))
  {
  }

  lemma QuietChain(m: Mem, n: Mem, b: Bins, p: Pos)
    requires Quiet(m, n, b.sz) && WellFormed(b.trie, b.sz) && p in b.trie.at
    ensures forall j | 0 <= j < |b.trie.at[p]| :: SameNode(m, n, b.trie.at[p][j])
  {
    hide WellFormed, Quiet, SameNode;
    forall j | 0 <= j < |b.trie.at[p]| ensures SameNode(m, n, b.trie.at[p][j]) {
      ChainIn(b.trie, b.sz, p, j);
      QuietNode(m, n, b.sz, b.trie.at[p][j]);
    }
  }

  // ----- Words the bins may change

  ghost predicate Interior(sz: map<int, int>, x: int, w: int) {
    x in sz && x + 16 <= w < x + sz[x]
  }

  /** Only words of the bin arrays and inside binned chunks differ. */
  ghost predicate Within(m: Mem, n: Mem, sz: map<int, int>) {
    forall w {:trigger Rd(n, w)} :: !BinArea(w) && (forall x :: !Interior(sz, x, w)) ==> Rd(n, w) == Rd(m, w)
  }

  /** The head of each binned chunk gives its size. */
  ghost predicate SizeTags(m: Mem, sz: map<int, int>) {
    forall x | x in sz :: Rd(m, x + HEAD) - Rd(m, x + HEAD) % 8 == sz[x]
  }

  lemma HeadOutside(sz: map<int, int>, x: int, w: int)
    requires Apart(sz) && x in sz && w == x + HEAD
    ensures !BinArea(w) && forall y :: !Interior(sz, y, w)
  {
  }

  lemma WithinSizes(m: Mem, n: Mem, sz: map<int, int>, tz: map<int, int>)
    requires Apart(sz) && Within(m, n, sz) && SizeTags(m, tz) && forall x | x in tz :: x in sz
    ensures SizeTags(n, tz)
  {
    hide BinArea, Interior, Apart;
    forall x | x in tz ensures Rd(n, x + HEAD) - Rd(n, x + HEAD) % 8 == tz[x] {
      HeadOutside(sz, x, x + HEAD);
    }
  }
}
