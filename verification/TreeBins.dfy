/** insert_large_chunk and unlink_large_chunk, seen as changes of the bins. */
module TreeBins {
  import opened Memory
  import opened Bits
  import opened BinMap
  import opened Ring
  import opened Tries
  import opened Bins
  import opened SmallBins

  // ----- Writes to tree words leave the small bins alone

  ghost predicate InSlots(a: int) {
    TreeBinAt(0) <= a < TreeBinAt(NTREEBINS)
  }

  /** Link or tree word of the large chunk `y`. */
  ghost predicate Owns(sz: map<int, int>, y: int, a: int) {
    y in sz && sz[y] >= 256 && y + 16 <= a < y + 64
  }

  ghost predicate TreeWord(sz: map<int, int>, a: int) {
    InSlots(a) || exists y :: Owns(sz, y, a)
  }

  /** Only tree words of the chunks of `sz`, and of the chunk `x`, differ. */
  ghost predicate TreeOnly(m: Mem, n: Mem, sz: map<int, int>, x: int) {
    forall a {:trigger Rd(n, a)} :: !TreeWord(sz, a) && !(x + 16 <= a < x + 64) ==> Rd(n, a) == Rd(m, a)
  }

  lemma NotTreeWord(sz: map<int, int>, e: int, a: int)
    requires Apart(sz) && e in sz && sz[e] < 256 && e + 16 <= a < e + sz[e]
    ensures !TreeWord(sz, a)
  {
    forall y | Owns(sz, y, a) ensures false {
    }
  }

  lemma HeaderNotTreeWord(sz: map<int, int>, i: nat, a: int)
    requires Apart(sz) && i < NBINS && (a == SmallBinAt(i) + FD || a == SmallBinAt(i) + BK)
    ensures !TreeWord(sz, a)
  {
    forall y | Owns(sz, y, a) ensures false {
    }
  }

  /** `x` is one of the large chunks, or clear of all binned chunks. */
  ghost predicate LargeOrFresh(sz: map<int, int>, x: int) {
    (x in sz && sz[x] >= 256) || Fresh(sz, x, 256)
  }

  lemma SmallUntouched(m: Mem, n: Mem, b: Bins, x: int, i: nat)
    requires Apart(b.sz) && |b.small| == NBINS && SmallPlaced(b) && i < NBINS
    requires TreeOnly(m, n, b.sz, x) && LargeOrFresh(b.sz, x)
    ensures SameLinks(m, n, [SmallBinAt(i)] + b.small[i])
  {
    hide Apart, LargeOrFresh;
    var r := [SmallBinAt(i)] + b.small[i];
    forall k | 0 <= k < |r| ensures Rd(n, r[k] + FD) == Rd(m, r[k] + FD) && Rd(n, r[k] + BK) == Rd(m, r[k] + BK) {
      if k > 0 {
        var e := b.small[i][k - 1];
        assert r[k] == e && e in b.sz;
        SmallMemberUntouched(m, n, b.sz, x, e);
      } else {
        HeaderUntouched(m, n, b.sz, x, i);
      }
    }
  }

  lemma SmallMemberUntouched(m: Mem, n: Mem, sz: map<int, int>, x: int, e: int)
    requires Apart(sz) && TreeOnly(m, n, sz, x) && LargeOrFresh(sz, x) && e in sz && sz[e] < 256
    ensures Rd(n, e + FD) == Rd(m, e + FD) && Rd(n, e + BK) == Rd(m, e + BK)
  {
    hide TreeWord;
    assert sz[e] >= 32;
    NotTreeWord(sz, e, e + FD);
    NotTreeWord(sz, e, e + BK);
  }

  lemma HeaderUntouched(m: Mem, n: Mem, sz: map<int, int>, x: int, i: nat)
    requires Apart(sz) && TreeOnly(m, n, sz, x) && LargeOrFresh(sz, x) && i < NBINS
    ensures var h := SmallBinAt(i); Rd(n, h + FD) == Rd(m, h + FD) && Rd(n, h + BK) == Rd(m, h + BK)
  {
    hide TreeWord;
    HeaderNotTreeWord(sz, i, SmallBinAt(i) + FD);
    HeaderNotTreeWord(sz, i, SmallBinAt(i) + BK);
  }

  /** The small bins after a change of tree words, for bins `c` that differ only in large chunks. */
  lemma SmallKept(m: Mem, n: Mem, smallmap: bv32, b: Bins, c: Bins, x: int)
    requires Apart(b.sz) && SmallOk(m, smallmap, b) && TreeOnly(m, n, b.sz, x) && LargeOrFresh(b.sz, x)
    requires c.small == b.small && SmallPlaced(c)
    ensures SmallOk(n, smallmap, c)
  {
    hide Marked, Apart, SmallPlaced, TreeOnly, LargeOrFresh, SameLinks;
    forall i | 0 <= i < NBINS ensures SmallBinOk(n, smallmap, c.small[i], i) {
      assert SmallBinOk(m, smallmap, b.small[i], i);
      SmallUntouched(m, n, b, x, i);
      SmallBinFrame(m, n, smallmap, smallmap, b.small[i], i);
    }
  }

  lemma PlacedWith(b: Bins, x: int, s: int, t: Trie)
    requires |b.small| == NBINS && SmallPlaced(b) && s >= 256 && x !in b.sz
    ensures SmallPlaced(Bins(b.sz[x := s], b.small, t))
  {
  }

  lemma PlacedWithout(b: Bins, x: int, t: Trie)
    requires |b.small| == NBINS && SmallPlaced(b) && x in b.sz && b.sz[x] >= 256
    ensures SmallPlaced(Bins(b.sz - {x}, b.small, t))
  {
  }

  // ----- Addresses of tree nodes

  /** Members of chains are large chunks, each at one place. */
  ghost predicate Located(t: Trie, sz: map<int, int>) {
    && (forall p | p in t.at :: |t.at[p]| > 0)
    && (forall p, j | p in t.at && 0 <= j < |t.at[p]| ::
          var y := t.at[p][j]; y in t.loc && t.loc[y] == p && y in sz && sz[y] >= 256)
  }

  lemma IsLocated(t: Trie, sz: map<int, int>)
    requires WellFormed(t, sz)
    ensures Located(t, sz)
  {
  }

  function Head(t: Trie, p: Pos): int {
    if p in t.at && |t.at[p]| > 0 then t.at[p][0] else 0
  }

  /** The word that points to the node at `p`: a bin slot or a child word of the node above. */
  function SlotAddr(t: Trie, p: Pos): int {
    if p.w >= Width(p.i) then TreeBinAt(p.i) else Head(t, Up(p)) + CHILD + 8 * (p.q % 2)
  }

  lemma FarApart(sz: map<int, int>, x: int, y: int)
    requires Apart(sz) && x in sz && y in sz && x != y && sz[x] >= 256 && sz[y] >= 256
    ensures x + 256 <= y || y + 256 <= x
  {
  }

  lemma ClearOfSlots(sz: map<int, int>, x: int)
    requires Apart(sz) && x in sz && sz[x] >= 256
    ensures x > 0
    ensures forall a | InSlots(a) :: a < x || x + 256 <= a
  {
  }

  /** What the words of `x` cannot be: those of another node, or of a slot. */
  lemma SlotAway(t: Trie, sz: map<int, int>, p: Pos, x: int)
    requires Apart(sz) && Located(t, sz) && PosOk(p) && (p.w < Width(p.i) ==> Up(p) in t.at)
    requires x in sz && sz[x] >= 256
    ensures var c := SlotAddr(t, p);
      c < x || x + 256 <= c || (p.w < Width(p.i) && x == Head(t, Up(p)))
  {
    hide Width, RootQ;
    if p.w >= Width(p.i) {
      ClearOfSlots(sz, x);
      assert InSlots(TreeBinAt(p.i));
    } else {
      var h := Head(t, Up(p));
      assert h == t.at[Up(p)][0];
      if h != x {
        FarApart(sz, h, x);
      }
    }
  }

  // ----- A new leaf

  /** The chain words of `y`: everything but its tree links. */
  ghost predicate SameChainWords(m: Mem, n: Mem, y: int) {
    Rd(n, y + FD) == Rd(m, y + FD) && Rd(n, y + BK) == Rd(m, y + BK) && Rd(n, y + INDEX) == Rd(m, y + INDEX)
  }

  lemma ChainKept(m: Mem, n: Mem, r: seq<int>, i: nat)
    requires ChainOk(m, r, i)
    requires forall j | 0 <= j < |r| :: SameChainWords(m, n, r[j])
    requires forall j | 1 <= j < |r| :: SameNode(m, n, r[j])
    ensures ChainOk(n, r, i)
  {
    Frame(m, n, r);
  }

  /** The writes of insert_large_chunk that hang `x` in the slot at address `c`. */
  ghost predicate Hangs(m: Mem, n: Mem, x: int, c: int, par: int, i: int) {
    && (forall a {:trigger Rd(n, a)} :: !(x + 16 <= a < x + 64) && a != c ==> Rd(n, a) == Rd(m, a))
    && Rd(n, x + FD) == x && Rd(n, x + BK) == x && Rd(n, x + INDEX) == i
    && Rd(n, x + CHILD) == 0 && Rd(n, x + CHILD + 8) == 0 && Rd(n, x + PARENT) == par
    && Rd(n, c) == x
  }

  lemma FreshFar(sz: map<int, int>, x: int, s: int, y: int)
    requires Fresh(sz, x, s) && s >= 256 && y in sz && sz[y] >= 256
    ensures x + 256 <= y || y + 256 <= x
  {
  }

  /** A node already there, other than the parent of the new leaf. */
  lemma HangOther(m: Mem, n: Mem, t: Trie, sz: map<int, int>, x: int, s: int, p: Pos, q: Pos)
    requires Apart(sz) && Located(t, sz) && CanHang(t, p) && Fresh(sz, x, s) && s >= 256
    requires Hangs(m, n, x, SlotAddr(t, p), ParentWord(t, p), p.i)
    requires q in t.at && Distinct(t.at[q])
    ensures forall j | 0 <= j < |t.at[q]| :: SameChainWords(m, n, t.at[q][j])
    ensures forall j | 0 <= j < |t.at[q]| && !(j == 0 && q == Up(p) && p.w < Width(p.i)) :: SameNode(m, n, t.at[q][j])
  {
    hide Apart, Fresh, SlotAddr, ParentWord, Width, RootQ;
    forall j | 0 <= j < |t.at[q]|
      ensures SameChainWords(m, n, t.at[q][j])
      ensures !(j == 0 && q == Up(p) && p.w < Width(p.i)) ==> SameNode(m, n, t.at[q][j])
    {
      var y := t.at[q][j];
      FreshFar(sz, x, s, y);
      SlotAway(t, sz, p, y);
      if p.w < Width(p.i) && y == Head(t, Up(p)) {
        SlotInHead(t, p);
        assert t.loc[y] == q && t.loc[y] == Up(p);
        HangHead(m, n, t, x, p, y);
      }
    }
  }

  lemma SlotInHead(t: Trie, p: Pos)
    requires p.w < Width(p.i)
    ensures SlotAddr(t, p) == Head(t, Up(p)) + CHILD + 8 * (p.q % 2)
  {
  }

  lemma HangHead(m: Mem, n: Mem, t: Trie, x: int, p: Pos, y: int)
    requires Hangs(m, n, x, SlotAddr(t, p), ParentWord(t, p), p.i)
    requires SlotAddr(t, p) == y + CHILD + 8 * (p.q % 2) && (x + 256 <= y || y + 256 <= x)
    ensures SameChainWords(m, n, y) && Rd(n, y + PARENT) == Rd(m, y + PARENT)
    ensures Rd(n, y + CHILD + 8 * (p.q % 2)) == x
    ensures Rd(n, y + CHILD + 8 * (1 - p.q % 2)) == Rd(m, y + CHILD + 8 * (1 - p.q % 2))
  {
  }

  lemma LeafParent(t: Trie, x: int, p: Pos, q: Pos)
    requires Shaped(t) && CanHang(t, p) && (q in t.at || q == p)
    ensures ParentWord(AddLeaf(t, x, p), q) == ParentWord(t, q)
  {
    hide Width, RootQ;
    if q.w < Width(q.i) {
      assert Up(q) in t.at;
    }
  }

  lemma LeafChild(t: Trie, x: int, p: Pos, q: Pos, c: nat)
    requires c < 2 && q.w > 0
    ensures ChildWord(AddLeaf(t, x, p), q, c) == if Child(q, c) == p then x else ChildWord(t, q, c)
  {
  }

  lemma ChildUp(q: Pos, c: nat, p: Pos)
    requires q.w > 0 && c < 2
    ensures Child(q, c) == p <==> q == Up(p) && c == p.q % 2
  {
  }

  lemma NoChildOfNew(t: Trie, p: Pos)
    requires Shaped(t) && CanHang(t, p)
    ensures p.w > 0 && Child(p, 0) !in t.at && Child(p, 1) !in t.at
  {
    hide Width, RootQ;
    UpOfChild(p, 0);
    UpOfChild(p, 1);
  }

  lemma UpOfChild(p: Pos, c: nat)
    requires p.w > 0 && c < 2
    ensures Up(Child(p, c)) == p
  {
  }

  lemma NewLeafOk(m: Mem, n: Mem, t: Trie, x: int, p: Pos)
    requires Shaped(t) && CanHang(t, p)
    requires Hangs(m, n, x, SlotAddr(t, p), ParentWord(t, p), p.i)
    ensures NodeOk(n, AddLeaf(t, x, p), p)
  {
    hide Width, RootQ, ParentWord, SlotAddr, CanHang, Shaped;
    LeafParent(t, x, p, p);
    NoChildOfNew(t, p);
    LeafChild(t, x, p, p, 0);
    LeafChild(t, x, p, p, 1);
  }

  /** The parent of the new leaf gets one new child word. */
  lemma HangParentOk(m: Mem, n: Mem, t: Trie, sz: map<int, int>, x: int, s: int, p: Pos)
    requires Apart(sz) && Located(t, sz) && Shaped(t) && CanHang(t, p) && Fresh(sz, x, s) && s >= 256
    requires Hangs(m, n, x, SlotAddr(t, p), ParentWord(t, p), p.i)
    requires p.w < Width(p.i) && Up(p) in t.at && HeadOk(m, t, Up(p), Head(t, Up(p)))
    ensures HeadOk(n, AddLeaf(t, x, p), Up(p), Head(t, Up(p)))
  {
    hide Apart, Located, Fresh, Width, RootQ, ParentWord, ChildWord, SlotAddr, Hangs, Shaped, CanHang;
    var q := Up(p);
    LeafParent(t, x, p, q);
    LeafChild(t, x, p, q, 0);
    LeafChild(t, x, p, q, 1);
    ChildUp(q, 0, p);
    ChildUp(q, 1, p);
    SlotInHead(t, p);
    HeadIn(t, sz, q);
    FreshFar(sz, x, s, Head(t, q));
    HangHead(m, n, t, x, p, Head(t, q));
  }

  lemma HangOtherOk(m: Mem, n: Mem, t: Trie, x: int, p: Pos, q: Pos, h: int)
    requires Shaped(t) && CanHang(t, p) && q in t.at && (q == Up(p) ==> p.w >= Width(p.i))
    requires HeadOk(m, t, q, h) && SameNode(m, n, h)
    ensures HeadOk(n, AddLeaf(t, x, p), q, h)
  {
    hide Width, RootQ, ParentWord, ChildWord, SameNode, HeadOk, AddLeaf;
    LeafParent(t, x, p, q);
    LeafChild(t, x, p, q, 0);
    LeafChild(t, x, p, q, 1);
    ChildUp(q, 0, p);
    ChildUp(q, 1, p);
    SameHead(m, n, t, AddLeaf(t, x, p), q, h);
  }

  lemma HangNodeOk(m: Mem, n: Mem, t: Trie, sz: map<int, int>, x: int, s: int, p: Pos, q: Pos)
    requires Apart(sz) && Located(t, sz) && Shaped(t) && CanHang(t, p) && Fresh(sz, x, s) && s >= 256
    requires Hangs(m, n, x, SlotAddr(t, p), ParentWord(t, p), p.i)
    requires q in t.at && NodeOk(m, t, q)
    ensures NodeOk(n, AddLeaf(t, x, p), q)
  {
    hide Apart, Located, Fresh, Width, RootQ, ParentWord, SlotAddr, Hangs, SameNode, SameChainWords, TailOk, Linked,
         Distinct, HeadOk;
    assert Distinct(t.at[q]);
    HangOther(m, n, t, sz, x, s, p, q);
    ChainKept(m, n, t.at[q], q.i);
    if q == Up(p) && p.w < Width(p.i) {
      HangParentOk(m, n, t, sz, x, s, p);
    } else {
      assert SameNode(m, n, t.at[q][0]);
      HangOtherOk(m, n, t, x, p, q, t.at[q][0]);
    }
  }

  lemma HeadIn(t: Trie, sz: map<int, int>, q: Pos)
    requires Located(t, sz) && q in t.at
    ensures |t.at[q]| > 0 && t.at[q][0] in sz && sz[t.at[q][0]] >= 256
  {
  }

  lemma SameHead(m: Mem, n: Mem, t: Trie, u: Trie, q: Pos, h: int)
    requires HeadOk(m, t, q, h) && SameNode(m, n, h)
    requires ParentWord(u, q) == ParentWord(t, q)
    requires ChildWord(u, q, 0) == ChildWord(t, q, 0) && ChildWord(u, q, 1) == ChildWord(t, q, 1)
    ensures HeadOk(n, u, q, h)
  {
    hide ParentWord, ChildWord;
  }

  // ----- Slots

  function MarkIf(root: bool, treemap: bv32, i: nat): bv32
    requires i < NBINS
  {
    if root then Mark(treemap, i) else treemap
  }

  lemma SlotIndex(i: nat, j: nat)
    requires i < NBINS && j < NBINS
    ensures InSlots(TreeBinAt(i)) && (TreeBinAt(i) == TreeBinAt(j) <==> i == j)
  {
  }

  lemma HangSlot(m: Mem, n: Mem, treemap: bv32, t: Trie, sz: map<int, int>, x: int, s: int, p: Pos, i: nat)
    requires Apart(sz) && Located(t, sz) && CanHang(t, p) && Fresh(sz, x, s) && s >= 256
    requires Hangs(m, n, x, SlotAddr(t, p), ParentWord(t, p), p.i)
    requires i < NBINS && SlotOk(m, treemap, t, i)
    ensures SlotOk(n, MarkIf(p.w == Width(p.i), treemap, p.i), AddLeaf(t, x, p), i)
  {
    hide Marked, Mark, Apart, Located, Fresh, Width, RootQ, ParentWord;
    MarkedMark(treemap, p.i, i);
    FreshNotSlot(sz, x, s, i);
    SlotIndex(i, p.i);
    if p.w < Width(p.i) {
      HeadIn(t, sz, Up(p));
      ClearOfSlots(sz, Head(t, Up(p)));
    }
  }

  lemma FreshNotSlot(sz: map<int, int>, x: int, s: int, i: nat)
    requires Fresh(sz, x, s) && s >= 256 && i < NBINS
    ensures TreeBinAt(i) < x || x + 256 <= TreeBinAt(i)
  {
  }

  // ----- insert_large_chunk, new place

  lemma HangTreeOnly(m: Mem, n: Mem, t: Trie, sz: map<int, int>, x: int, p: Pos)
    requires Apart(sz) && Located(t, sz) && CanHang(t, p)
    requires Hangs(m, n, x, SlotAddr(t, p), ParentWord(t, p), p.i)
    ensures TreeOnly(m, n, sz, x)
  {
    hide Apart, Located, Width, RootQ, ParentWord;
    if p.w < Width(p.i) {
      HeadIn(t, sz, Up(p));
      assert Owns(sz, Head(t, Up(p)), SlotAddr(t, p));
    } else {
      SlotIndex(p.i, p.i);
    }
  }

  lemma FreshLarge(sz: map<int, int>, x: int, s: int)
    requires Fresh(sz, x, s) && s >= 256
    ensures LargeOrFresh(sz, x) && x !in sz
  {
  }

  /** The bins with the large chunk `x` at the trie `t`. */
  function AddLarge(b: Bins, x: int, s: int, t: Trie): Bins {
    Bins(b.sz[x := s], b.small, t)
  }

  lemma LeafInserted(m: Mem, n: Mem, smallmap: bv32, treemap: bv32, b: Bins, x: int, s: int, p: Pos)
    requires BinsOk(m, smallmap, treemap, b) && LargeSize(s) && Fresh(b.sz, x, s)
    requires CanHang(b.trie, p) && p == Path(s, p.w) && forall y | y in b.trie.loc :: y in b.sz && b.sz[y] != s
    requires Hangs(m, n, x, SlotAddr(b.trie, p), ParentWord(b.trie, p), p.i)
    ensures p.i < NBINS
    ensures BinsOk(n, smallmap, MarkIf(p.w == Width(p.i), treemap, p.i), AddLarge(b, x, s, AddLeaf(b.trie, x, p)))
  {
    hide Marked, Mark, MarkIf, Apart, Shaped, Placed, Keyed, Unique, Chained, Complete, SmallOk, Fresh, Hangs, NodeOk,
         SlotOk,
         Path, Width, RootQ, SlotAddr, ParentWord, Located, CanHang, LargeOrFresh, TreeOnly, SmallPlaced;
    var t, u := b.trie, AddLeaf(b.trie, x, p);
    var c := AddLarge(b, x, s, u);
    PosBin(t, p);
    IsLocated(t, b.sz);
    FreshLarge(b.sz, x, s);
    AddApart(b.sz, x, s);
    LeafKeeps(t, b.sz, x, s, p);
    HangTreeOnly(m, n, t, b.sz, x, p);
    assert SmallOk(n, smallmap, c) by {
      SmallShape(m, smallmap, b);
      PlacedWith(b, x, s, u);
      SmallKept(m, n, smallmap, b, c, x);
    }
    forall q | q in u.at ensures NodeOk(n, u, q) {
      if q == p {
        NewLeafOk(m, n, t, x, p);
      } else {
        HangNodeOk(m, n, t, b.sz, x, s, p, q);
      }
    }
    var map' := MarkIf(p.w == Width(p.i), treemap, p.i);
    forall i | 0 <= i < NBINS ensures SlotOk(n, map', u, i) {
      HangSlot(m, n, treemap, t, b.sz, x, s, p, i);
    }
  }

  lemma PosBin(t: Trie, p: Pos)
    requires CanHang(t, p)
    ensures p.i < NBINS && p !in t.at
  {
  }

  lemma SmallShape(m: Mem, smallmap: bv32, b: Bins)
    requires SmallOk(m, smallmap, b)
    ensures |b.small| == NBINS && SmallPlaced(b)
  {
  }

  // ----- insert_large_chunk, chained behind a node of the same size

  /** The writes that chain `x` behind the node `h`, whose successor was `f`. */
  ghost predicate Chains(m: Mem, n: Mem, x: int, h: int, f: int, i: int) {
    LinksIn(m, n, h, f, x, 64) && Rd(n, x + INDEX) == i && TailOk(n, x)
  }

  lemma ChainSpaced(sz: map<int, int>, r: seq<int>)
    requires Apart(sz) && Distinct(r) && forall j | 0 <= j < |r| :: r[j] in sz && sz[r[j]] >= 256
    ensures Spaced(r) && WideApart(r)
  {
    forall j, k | 0 <= j < k < |r| ensures r[j] + 256 <= r[k] || r[k] + 256 <= r[j] {
      FarApart(sz, r[j], r[k]);
    }
  }

  lemma ChainClear(sz: map<int, int>, r: seq<int>, x: int, s: int)
    requires Fresh(sz, x, s) && s >= 256
    requires forall j | 0 <= j < |r| :: r[j] in sz && sz[r[j]] >= 256
    ensures ClearOf(r, x, 64) && WideClear(r, x)
  {
    forall j | 0 <= j < |r| ensures x + 256 <= r[j] || r[j] + 256 <= x {
      FreshFar(sz, x, s, r[j]);
    }
  }

  /** The chain at `p`, seen as a spaced ring of large chunks. */
  lemma ChainMembersAt(m: Mem, t: Trie, sz: map<int, int>, p: Pos)
    requires Apart(sz) && Located(t, sz) && p in t.at && NodeOk(m, t, p)
    ensures Spaced(t.at[p]) && WideApart(t.at[p]) && |t.at[p]| > 0
    ensures forall j | 0 <= j < |t.at[p]| :: t.at[p][j] in sz && sz[t.at[p][j]] >= 256
  {
    ChainSpaced(sz, t.at[p]);
  }

  ghost predicate WideApart(r: seq<int>) {
    forall j, k | 0 <= j < k < |r| :: r[j] + 256 <= r[k] || r[k] + 256 <= r[j]
  }

  ghost predicate WideClear(r: seq<int>, x: int) {
    forall j | 0 <= j < |r| :: x + 256 <= r[j] || r[j] + 256 <= x
  }

  lemma ChainsMember(m: Mem, n: Mem, r: seq<int>, x: int, f: nat, i: int, j: nat)
    requires f < |r| && j < |r| && WideApart(r) && WideClear(r, x)
    requires Chains(m, n, x, r[0], r[f], i)
    ensures Rd(n, r[j] + INDEX) == Rd(m, r[j] + INDEX)
    ensures TailOk(m, r[j]) ==> TailOk(n, r[j])
  {
    assert r[j] == r[0] || r[j] + 256 <= r[0] || r[0] + 256 <= r[j];
    assert r[j] == r[f] || r[j] + 256 <= r[f] || r[f] + 256 <= r[j];
  }

  lemma ChainsChainOk(m: Mem, n: Mem, r: seq<int>, x: int, i: nat)
    requires |r| > 0 && ChainOk(m, r, i) && Spaced(r) && ClearOf(r, x, 64) && WideApart(r) && WideClear(r, x)
    requires Chains(m, n, x, r[0], Rd(m, r[0] + FD), i)
    ensures ChainOk(n, With(r, x), i)
    ensures Rd(m, r[0] + FD) in r
  {
    hide Linked, Spaced, ClearOf, WideApart, WideClear, LinksIn, TailOk;
    var s := With(r, x);
    Insert(m, n, r, x, 64);
    FirstNext(m, r);
    SpacedDistinct(s);
    assert TailOk(n, x) && Rd(n, x + INDEX) == i;
    forall j | 0 <= j < |s| ensures Rd(n, s[j] + INDEX) == i && (j > 0 ==> TailOk(n, s[j])) {
      if j != 1 {
        var k := if j == 0 then 0 else j - 1;
        assert s[j] == r[k];
        ChainsMember(m, n, r, x, Nx(|r|, 0), i, k);
      }
    }
  }

  lemma SpacedDistinct(r: seq<int>)
    requires Spaced(r)
    ensures Distinct(r)
  {
  }

  lemma FirstNext(m: Mem, r: seq<int>)
    requires |r| > 0 && Linked(m, r)
    ensures Rd(m, r[0] + FD) == r[Nx(|r|, 0)] && Rd(m, r[0] + FD) in r
  {
    assert Link(m, r, 0);
  }

  // ----- Changing one chain and nothing else

  /** Only words of the tree chunks `e`, `f` and `x` differ. */
  ghost predicate OnlyNodes(m: Mem, n: Mem, e: int, f: int, x: int) {
    forall a {:trigger Rd(n, a)} ::
      !(e + 16 <= a < e + 64) && !(f + 16 <= a < f + 64) && !(x + 16 <= a < x + 64) ==> Rd(n, a) == Rd(m, a)
  }

  ghost predicate Far(x: int, y: int) {
    x + 64 <= y || y + 64 <= x
  }

  lemma FarNode(m: Mem, n: Mem, e: int, f: int, x: int, y: int)
    requires OnlyNodes(m, n, e, f, x) && Far(e, y) && Far(f, y) && Far(x, y)
    ensures SameNode(m, n, y)
  {
  }

  /** `e` is chained at `p`, or is clear of all binned chunks. */
  ghost predicate AtOrFresh(t: Trie, sz: map<int, int>, p: Pos, e: int) {
    (e in t.loc && t.loc[e] == p && e in sz && sz[e] >= 256) || Fresh(sz, e, 256)
  }

  lemma ElsewhereFar(t: Trie, sz: map<int, int>, p: Pos, e: int, q: Pos, j: nat)
    requires Apart(sz) && Located(t, sz) && AtOrFresh(t, sz, p, e)
    requires q in t.at && q != p && j < |t.at[q]|
    ensures Far(e, t.at[q][j])
  {
    hide Apart, Fresh;
    var y := t.at[q][j];
    if Fresh(sz, e, 256) {
      FreshFar(sz, e, 256, y);
    } else {
      FarApart(sz, e, y);
    }
  }

  /** The same places are occupied, by chains with the same first chunk. */
  ghost predicate SameHeads(t: Trie, u: Trie) {
    u.at.Keys == t.at.Keys && forall p | p in t.at :: |t.at[p]| > 0 && |u.at[p]| > 0 && u.at[p][0] == t.at[p][0]
  }

  lemma SameHeadsWords(t: Trie, u: Trie, q: Pos)
    requires SameHeads(t, u)
    ensures ParentWord(u, q) == ParentWord(t, q)
    ensures ChildWord(u, q, 0) == ChildWord(t, q, 0) && ChildWord(u, q, 1) == ChildWord(t, q, 1)
  {
    hide Width;
  }

  lemma ElsewhereOk(m: Mem, n: Mem, t: Trie, u: Trie, sz: map<int, int>, p: Pos, e: int, f: int, x: int, q: Pos)
    requires Apart(sz) && Located(t, sz) && SameHeads(t, u) && OnlyNodes(m, n, e, f, x)
    requires AtOrFresh(t, sz, p, e) && AtOrFresh(t, sz, p, f) && AtOrFresh(t, sz, p, x)
    requires q in t.at && q != p && NodeOk(m, t, q) && u.at[q] == t.at[q]
    ensures NodeOk(n, u, q)
  {
    hide Apart, Located, OnlyNodes, AtOrFresh, SameNode, ChainOk, HeadOk, ParentWord, ChildWord, Far;
    forall j | 0 <= j < |t.at[q]| ensures SameNode(m, n, t.at[q][j]) {
      ElsewhereFar(t, sz, p, e, q, j);
      ElsewhereFar(t, sz, p, f, q, j);
      ElsewhereFar(t, sz, p, x, q, j);
      FarNode(m, n, e, f, x, t.at[q][j]);
    }
    SameHeadsWords(t, u, q);
    NodeFrame(m, n, t, u, q);
  }

  lemma NodesTreeOnly(m: Mem, n: Mem, t: Trie, sz: map<int, int>, p: Pos, e: int, f: int, x: int)
    requires OnlyNodes(m, n, e, f, x)
    requires AtOrFresh(t, sz, p, e) && AtOrFresh(t, sz, p, f) && AtOrFresh(t, sz, p, x)
    requires e in sz && f in sz
    ensures TreeOnly(m, n, sz, x) && LargeOrFresh(sz, x)
  {
    hide InSlots;
    assert sz[e] >= 256 && sz[f] >= 256;
    assert Fresh(sz, x, 256) || (x in sz && sz[x] >= 256);
    forall a | !TreeWord(sz, a) && !(x + 16 <= a < x + 64) ensures Rd(n, a) == Rd(m, a) {
      assert !Owns(sz, e, a) && !Owns(sz, f, a);
    }
  }

  lemma NodesSlot(m: Mem, n: Mem, t: Trie, sz: map<int, int>, p: Pos, e: int, f: int, x: int, i: nat)
    requires Apart(sz) && OnlyNodes(m, n, e, f, x) && i < NBINS
    requires AtOrFresh(t, sz, p, e) && AtOrFresh(t, sz, p, f) && AtOrFresh(t, sz, p, x)
    ensures Rd(n, TreeBinAt(i)) == Rd(m, TreeBinAt(i))
  {
    hide Apart, Fresh;
    SlotIndex(i, i);
    NodeNotSlot(t, sz, p, e, TreeBinAt(i));
    NodeNotSlot(t, sz, p, f, TreeBinAt(i));
    NodeNotSlot(t, sz, p, x, TreeBinAt(i));
  }

  lemma NodeNotSlot(t: Trie, sz: map<int, int>, p: Pos, e: int, a: int)
    requires Apart(sz) && AtOrFresh(t, sz, p, e) && InSlots(a)
    ensures a < e || e + 64 <= a
  {
    if !Fresh(sz, e, 256) {
      ClearOfSlots(sz, e);
    }
  }

  /** A change confined to the chain at `p` that keeps its first chunk: everything else stands. */
  lemma OneChain(m: Mem, n: Mem, smallmap: bv32, treemap: bv32, b: Bins, c: Bins, p: Pos, e: int, f: int, x: int)
    requires BinsOk(m, smallmap, treemap, b) && p in b.trie.at
    requires OnlyNodes(m, n, e, f, x) && e in b.sz && f in b.sz
    requires AtOrFresh(b.trie, b.sz, p, e) && AtOrFresh(b.trie, b.sz, p, f) && AtOrFresh(b.trie, b.sz, p, x)
    requires Apart(c.sz) && c.small == b.small && SmallPlaced(c) && WellFormed(c.trie, c.sz)
    requires SameHeads(b.trie, c.trie) && (forall q | q in b.trie.at && q != p :: c.trie.at[q] == b.trie.at[q])
    requires NodeOk(n, c.trie, p)
    ensures BinsOk(n, smallmap, treemap, c)
  {
    hide Marked, Apart, WellFormed, SmallOk, NodeOk, Width, RootQ, Located, SmallPlaced, OnlyNodes, AtOrFresh,
         TreeOnly, LargeOrFresh;
    var t, u := b.trie, c.trie;
    IsLocated(t, b.sz);
    NodesTreeOnly(m, n, t, b.sz, p, e, f, x);
    SmallKept(m, n, smallmap, b, c, x);
    forall q | q in u.at ensures NodeOk(n, u, q) {
      if q != p {
        ElsewhereOk(m, n, t, u, b.sz, p, e, f, x, q);
      }
    }
    forall i | 0 <= i < NBINS ensures SlotOk(n, treemap, u, i) {
      assert SlotOk(m, treemap, t, i);
      NodesSlot(m, n, t, b.sz, p, e, f, x, i);
    }
  }

  lemma ChainInserted(m: Mem, n: Mem, smallmap: bv32, treemap: bv32, b: Bins, x: int, s: int, p: Pos)
    requires BinsOk(m, smallmap, treemap, b) && LargeSize(s) && Fresh(b.sz, x, s)
    requires p in b.trie.at && p == Path(s, p.w) && SizeAt(b.trie, b.sz, p) == s
    requires Chains(m, n, x, Head(b.trie, p), Rd(m, Head(b.trie, p) + FD), p.i)
    ensures |b.trie.at[p]| > 0
    ensures BinsOk(n, smallmap, treemap, AddLarge(b, x, s, AddChained(b.trie, x, p)))
  {
    hide Marked, Apart, WellFormed, SmallOk, ChainOk, HeadOk, SlotOk, Fresh, Path, SizeAt, Chains, Located,
         SmallPlaced, OnlyNodes, WideApart, WideClear, Spaced, AtOrFresh;
    var t, sz := b.trie, b.sz;
    IsLocated(t, sz);
    assert NodeOk(m, t, p);
    ChainMembersAt(m, t, sz, p);
    var r := t.at[p];
    var h, f := r[0], Rd(m, r[0] + FD);
    var u := AddChained(t, x, p);
    var c := AddLarge(b, x, s, u);
    ChainClear(sz, r, x, s);
    ChainsChainOk(m, n, r, x, p.i);
    ChainsOnly(m, n, x, h, f, p.i);
    FreshLarge(sz, x, s);
    AddApart(sz, x, s);
    ChainKeeps(t, sz, x, s, p);
    SmallShape(m, smallmap, b);
    PlacedWith(b, x, s, u);
    MemberAt(t, sz, p, h);
    MemberAt(t, sz, p, f);
    FreshAt(t, sz, p, x, s);
    SameHeadsWords(t, u, p);
    ChainsHead(m, n, t, u, p, x, r);
    OneChain(m, n, smallmap, treemap, b, c, p, h, f, x);
  }

  lemma ChainsHead(m: Mem, n: Mem, t: Trie, u: Trie, p: Pos, x: int, r: seq<int>)
    requires |r| > 0 && WideApart(r) && WideClear(r, x) && Rd(m, r[0] + FD) in r
    requires Chains(m, n, x, r[0], Rd(m, r[0] + FD), p.i)
    requires HeadOk(m, t, p, r[0]) && ParentWord(u, p) == ParentWord(t, p)
    requires ChildWord(u, p, 0) == ChildWord(t, p, 0) && ChildWord(u, p, 1) == ChildWord(t, p, 1)
    ensures HeadOk(n, u, p, r[0])
  {
    hide ParentWord, ChildWord;
  }

  lemma ChainsOnly(m: Mem, n: Mem, x: int, h: int, f: int, i: int)
    requires Chains(m, n, x, h, f, i)
    ensures OnlyNodes(m, n, h, f, x)
  {
  }

  lemma MemberAt(t: Trie, sz: map<int, int>, p: Pos, y: int)
    requires Located(t, sz) && p in t.at && y in t.at[p]
    ensures AtOrFresh(t, sz, p, y) && y in sz && sz[y] >= 256 && y in t.loc && t.loc[y] == p
  {
    var j :| 0 <= j < |t.at[p]| && t.at[p][j] == y;
  }

  lemma FreshAt(t: Trie, sz: map<int, int>, p: Pos, x: int, s: int)
    requires Fresh(sz, x, s) && s >= 256
    ensures AtOrFresh(t, sz, p, x)
  {
  }

  // ----- unlink_large_chunk, step 1: a chained chunk

  /** The tree words of `y`: everything but its chain links. */
  ghost predicate SameTreeWords(m: Mem, n: Mem, y: int) {
    && Rd(n, y + INDEX) == Rd(m, y + INDEX) && Rd(n, y + PARENT) == Rd(m, y + PARENT)
    && Rd(n, y + CHILD) == Rd(m, y + CHILD) && Rd(n, y + CHILD + 8) == Rd(m, y + CHILD + 8)
  }

  lemma OutMember(m: Mem, n: Mem, r: seq<int>, f: nat, b: nat, j: nat)
    requires f < |r| && b < |r| && j < |r| && WideApart(r) && LinksOut(m, n, r[b], r[f])
    ensures SameTreeWords(m, n, r[j])
  {
    assert r[j] == r[f] || r[j] + 256 <= r[f] || r[f] + 256 <= r[j];
    assert r[j] == r[b] || r[j] + 256 <= r[b] || r[b] + 256 <= r[j];
  }

  /** Taking element `k` out of a chain: the rest is still a ring, with its tree words as they were. */
  lemma OutChain(m: Mem, n: Mem, r: seq<int>, k: nat, i: nat)
    requires k < |r| && |r| > 1 && ChainOk(m, r, i) && Spaced(r) && WideApart(r)
    requires LinksOut(m, n, Rd(m, r[k] + BK), Rd(m, r[k] + FD))
    ensures Linked(n, Without(r, k)) && Spaced(Without(r, k)) && Distinct(Without(r, k))
    ensures Rd(m, r[k] + FD) == r[Nx(|r|, k)] && Rd(m, r[k] + BK) == r[Pv(|r|, k)]
    ensures forall j | 0 <= j < |r| :: SameTreeWords(m, n, r[j])
  {
    hide Linked, Spaced, WideApart, LinksOut, Without, SameTreeWords;
    Remove(m, n, r, k);
    SpacedDistinct(Without(r, k));
    Neighbours(m, r, k);
    forall j | 0 <= j < |r| ensures SameTreeWords(m, n, r[j]) {
      OutMember(m, n, r, Nx(|r|, k), Pv(|r|, k), j);
    }
  }

  lemma WithoutAt(r: seq<int>, k: nat, j: nat)
    requires k < |r| && j < |r| - 1
    ensures |Without(r, k)| == |r| - 1 && Without(r, k)[j] == r[Kept(k, j)]
  {
  }

  lemma OutTail(m: Mem, n: Mem, t: Trie, u: Trie, p: Pos, r: seq<int>, k: nat)
    requires 0 < k < |r| && ChainOk(m, r, p.i) && Spaced(r) && WideApart(r)
    requires LinksOut(m, n, Rd(m, r[k] + BK), Rd(m, r[k] + FD))
    requires p in u.at && u.at[p] == Without(r, k) && HeadOk(m, t, p, r[0])
    requires ParentWord(u, p) == ParentWord(t, p)
    requires ChildWord(u, p, 0) == ChildWord(t, p, 0) && ChildWord(u, p, 1) == ChildWord(t, p, 1)
    ensures NodeOk(n, u, p)
  {
    hide Linked, Spaced, WideApart, LinksOut, Without, ParentWord, ChildWord;
    var s := Without(r, k);
    OutChain(m, n, r, k, p.i);
    WithoutAt(r, k, 0);
    assert SameTreeWords(m, n, r[0]);
    forall j | 0 <= j < |s| ensures Rd(n, s[j] + INDEX) == p.i && (j > 0 ==> TailOk(n, s[j])) {
      WithoutAt(r, k, j);
      assert SameTreeWords(m, n, r[Kept(k, j)]);
      assert j > 0 ==> TailOk(m, r[Kept(k, j)]);
    }
  }

  /** `c` is `b` without the large chunk `x`, its trie being `u`. */
  function DropLarge(b: Bins, x: int, u: Trie): Bins {
    Bins(b.sz - {x}, b.small, u)
  }

  lemma OutOnly(m: Mem, n: Mem, b: int, f: int, x: int)
    requires LinksOut(m, n, b, f)
    ensures OnlyNodes(m, n, b, f, x)
  {
  }

  lemma WithoutLeaves(r: seq<int>, k: nat)
    requires k < |r| && |r| > 1 && Distinct(r)
    ensures LeavesBehind(r, r[k], Without(r, k))
  {
    var s := Without(r, k);
    forall y ensures y in s <==> y in r && y != r[k] {
      if y in s {
        var j :| 0 <= j < |s| && s[j] == y;
        assert y == r[Kept(k, j)] && Kept(k, j) != k;
      }
      if y in r && y != r[k] {
        var j :| 0 <= j < |r| && r[j] == y;
        assert s[if j < k then j else j - 1] == y;
      }
    }
  }

  /** Unlinking a chunk chained behind a node. */
  lemma TailRemoved(m: Mem, n: Mem, smallmap: bv32, treemap: bv32, b: Bins, p: Pos, k: nat)
    requires BinsOk(m, smallmap, treemap, b) && p in b.trie.at && 0 < k < |b.trie.at[p]|
    requires var x := b.trie.at[p][k]; LinksOut(m, n, Rd(m, x + BK), Rd(m, x + FD))
    ensures var x := b.trie.at[p][k];
      && x in b.trie.loc && b.trie.loc[x] == p
      && BinsOk(n, smallmap, treemap, DropLarge(b, x, DropMember(b.trie, x, Without(b.trie.at[p], k))))
  {
    hide Marked, Apart, WellFormed, SmallOk, HeadOk, SlotOk, Located, SmallPlaced, OnlyNodes, WideApart, Spaced,
         AtOrFresh,
         Linked, LinksOut, Without, LeavesBehind, TailOk, ParentWord, ChildWord;
    var t, sz, r := b.trie, b.sz, b.trie.at[p];
    var x := r[k];
    IsLocated(t, sz);
    assert NodeOk(m, t, p);
    ChainMembersAt(m, t, sz, p);
    MemberAt(t, sz, p, x);
    var u := DropMember(t, x, Without(r, k));
    var c := DropLarge(b, x, u);
    OutChain(m, n, r, k, p.i);
    var f, e := Rd(m, x + FD), Rd(m, x + BK);
    MemberAt(t, sz, p, f);
    MemberAt(t, sz, p, e);
    OutOnly(m, n, e, f, x);
    WithoutLeaves(r, k);
    WithoutAt(r, k, 0);
    MemberKeeps(t, sz, x, Without(r, k));
    DropApart(sz, x);
    SmallShape(m, smallmap, b);
    PlacedWithout(b, x, u);
    SameHeadsNow(t, u, sz);
    SameHeadsWords(t, u, p);
    OutTail(m, n, t, u, p, r, k);
    OneChain(m, n, smallmap, treemap, b, c, p, e, f, x);
  }

  lemma SameHeadsNow(t: Trie, u: Trie, sz: map<int, int>)
    requires Located(t, sz) && u.at.Keys == t.at.Keys
    requires forall p | p in t.at :: |u.at[p]| > 0 && (u.at[p] != t.at[p] ==> u.at[p][0] == t.at[p][0])
    ensures SameHeads(t, u)
  {
  }

  // ----- unlink_large_chunk, step 2: a leaf comes off its slot

  ghost predicate Zeroes(m: Mem, n: Mem, c: int) {
    (forall a {:trigger Rd(n, a)} :: a != c ==> Rd(n, a) == Rd(m, a)) && Rd(n, c) == 0
  }

  /** The trie with place `p` vacated; where its chunks go is left open. */
  function Vacated(t: Trie, p: Pos): Trie {
    Trie(t.at - {p}, t.loc)
  }

  lemma VacatedParent(t: Trie, p: Pos, q: Pos)
    requires Shaped(t) && Childless(t, p) && q in t.at && q != p
    ensures ParentWord(Vacated(t, p), q) == ParentWord(t, q)
  {
    hide Width, RootQ;
    ChildlessParent(t, p, q);
  }

  lemma VacatedChild(t: Trie, p: Pos, q: Pos, c: nat)
    requires c < 2 && q.w > 0
    ensures ChildWord(Vacated(t, p), q, c) == if Child(q, c) == p then 0 else ChildWord(t, q, c)
  {
  }

  lemma ZeroSame(m: Mem, n: Mem, c: int, y: int)
    requires Zeroes(m, n, c) && (c < y || y + 64 <= c)
    ensures SameNode(m, n, y)
  {
  }

  lemma ZeroHead(m: Mem, n: Mem, y: int, bit: nat)
    requires bit < 2 && Zeroes(m, n, y + CHILD + 8 * bit)
    ensures SameChainWords(m, n, y) && Rd(n, y + PARENT) == Rd(m, y + PARENT)
    ensures Rd(n, y + CHILD + 8 * bit) == 0 && Rd(n, y + CHILD + 8 * (1 - bit)) == Rd(m, y + CHILD + 8 * (1 - bit))
  {
  }

  lemma VacatedChain(m: Mem, n: Mem, t: Trie, sz: map<int, int>, p: Pos, q: Pos)
    requires Apart(sz) && Located(t, sz) && PosOk(p) && (p.w < Width(p.i) ==> Up(p) in t.at)
    requires Zeroes(m, n, SlotAddr(t, p)) && q in t.at && Distinct(t.at[q])
    ensures forall j | 0 <= j < |t.at[q]| :: SameChainWords(m, n, t.at[q][j])
    ensures forall j | 0 <= j < |t.at[q]| && !(j == 0 && q == Up(p) && p.w < Width(p.i)) :: SameNode(m, n, t.at[q][j])
  {
    hide Apart, SlotAddr, Width, RootQ, Zeroes;
    forall j | 0 <= j < |t.at[q]|
      ensures SameChainWords(m, n, t.at[q][j])
      ensures !(j == 0 && q == Up(p) && p.w < Width(p.i)) ==> SameNode(m, n, t.at[q][j])
    {
      var y := t.at[q][j];
      SlotAway(t, sz, p, y);
      if p.w < Width(p.i) && y == Head(t, Up(p)) {
        SlotInHead(t, p);
        assert t.loc[y] == q && t.loc[y] == Up(p);
        ZeroHead(m, n, y, p.q % 2);
      } else {
        ZeroSame(m, n, SlotAddr(t, p), y);
      }
    }
  }

  lemma VacatedParentOk(m: Mem, n: Mem, t: Trie, p: Pos)
    requires Shaped(t) && p in t.at && Childless(t, p) && p.w < Width(p.i) && Up(p) in t.at
    requires Zeroes(m, n, SlotAddr(t, p)) && HeadOk(m, t, Up(p), Head(t, Up(p)))
    ensures HeadOk(n, Vacated(t, p), Up(p), Head(t, Up(p)))
  {
    hide Width, RootQ, ParentWord, ChildWord, SlotAddr, Zeroes, Childless, Shaped;
    var q := Up(p);
    VacatedParent(t, p, q);
    VacatedChild(t, p, q, 0);
    VacatedChild(t, p, q, 1);
    ChildUp(q, 0, p);
    ChildUp(q, 1, p);
    SlotInHead(t, p);
    ZeroHead(m, n, Head(t, q), p.q % 2);
  }

  lemma VacatedOtherOk(m: Mem, n: Mem, t: Trie, p: Pos, q: Pos, h: int)
    requires Shaped(t) && Childless(t, p) && q in t.at && q != p && q != Up(p)
    requires HeadOk(m, t, q, h) && SameNode(m, n, h)
    ensures HeadOk(n, Vacated(t, p), q, h)
  {
    hide Width, RootQ, ParentWord, ChildWord, SameNode, HeadOk, Vacated, Childless;
    VacatedParent(t, p, q);
    VacatedChild(t, p, q, 0);
    VacatedChild(t, p, q, 1);
    ChildUp(q, 0, p);
    ChildUp(q, 1, p);
    SameHead(m, n, t, Vacated(t, p), q, h);
  }

  lemma UpperRoot(p: Pos, q: Pos)
    requires PosOk(p) && PosOk(q)
    ensures q == Up(p) ==> p.w < Width(p.i)
  {
  }

  /** With the leaf at `p` off its slot, every other node is in order, and `p`'s own chain is untouched. */
  lemma VacatedOk(m: Mem, n: Mem, t: Trie, sz: map<int, int>, p: Pos, q: Pos)
    requires Apart(sz) && Located(t, sz) && Shaped(t) && p in t.at && Childless(t, p)
    requires Zeroes(m, n, SlotAddr(t, p)) && q in t.at && NodeOk(m, t, q)
    ensures q != p ==> NodeOk(n, Vacated(t, p), q)
    ensures q == p ==> NodeOk(n, t, p)
  {
    hide Apart, Located, Width, RootQ, ParentWord, ChildWord, SlotAddr, Zeroes, Childless, SameNode, SameChainWords,
         TailOk, Linked, Distinct, HeadOk;
    assert Distinct(t.at[q]);
    assert PosOk(p);
    VacatedChain(m, n, t, sz, p, q);
    ChainKept(m, n, t.at[q], q.i);
    assert PosOk(q);
    UpperRoot(p, q);
    if q == p {
      assert SameNode(m, n, t.at[q][0]);
      SameHead(m, n, t, t, q, t.at[q][0]);
    } else if q == Up(p) {
      VacatedParentOk(m, n, t, p);
    } else {
      assert SameNode(m, n, t.at[q][0]);
      VacatedOtherOk(m, n, t, p, q, t.at[q][0]);
    }
  }

  // ----- unlink_large_chunk, step 3: another chunk takes over the node's tree links

  /** The writes that put `h` in the place of the node `x`: the slot, the parent word of `h`, and for
      each child of `x` the child word of `h` and the child's parent word. */
  ghost predicate Reheads(m: Mem, n: Mem, x: int, h: int, slot: int, par: int) {
    var c0, c1 := Rd(m, x + CHILD), Rd(m, x + CHILD + 8);
    forall a {:trigger Rd(n, a)} :: Rd(n, a) ==
      if c1 != 0 && a == c1 + PARENT then h
      else if c1 != 0 && a == h + CHILD + 8 then c1
      else if c0 != 0 && a == c0 + PARENT then h
      else if c0 != 0 && a == h + CHILD then c0
      else if a == h + PARENT then par
      else if a == slot then h
      else Rd(m, a)
  }

  /** `y` is not one of the chunks `c`, or is exactly it. */
  ghost predicate FarOrSame(c: int, y: int) {
    c == 0 || c == y || Far(c, y)
  }

  /** A node that is neither the new head nor the parent: only its parent word may change. */
  lemma ReheadNode(m: Mem, n: Mem, x: int, h: int, slot: int, par: int, y: int)
    requires Reheads(m, n, x, h, slot, par) && Far(h, y) && (slot < y || y + 64 <= slot)
    requires FarOrSame(Rd(m, x + CHILD), y) && FarOrSame(Rd(m, x + CHILD + 8), y) && y != 0
    ensures SameChainWords(m, n, y) && Rd(n, y + CHILD) == Rd(m, y + CHILD)
    ensures Rd(n, y + CHILD + 8) == Rd(m, y + CHILD + 8)
    ensures Rd(n, y + PARENT) == if y == Rd(m, x + CHILD) || y == Rd(m, x + CHILD + 8) then h else Rd(m, y + PARENT)
  {
  }

  /** The parent: one child word changes. */
  lemma ReheadParent(m: Mem, n: Mem, x: int, h: int, slot: int, par: int, y: int, bit: nat)
    requires Reheads(m, n, x, h, slot, par) && Far(h, y) && bit < 2 && slot == y + CHILD + 8 * bit
    requires FarOrSame(Rd(m, x + CHILD), y) && FarOrSame(Rd(m, x + CHILD + 8), y)
    requires y != Rd(m, x + CHILD) && y != Rd(m, x + CHILD + 8)
    ensures SameChainWords(m, n, y) && Rd(n, y + PARENT) == Rd(m, y + PARENT)
    ensures Rd(n, y + CHILD + 8 * bit) == h && Rd(n, y + CHILD + 8 * (1 - bit)) == Rd(m, y + CHILD + 8 * (1 - bit))
  {
  }

  /** The new head: it had no children of its own. */
  lemma ReheadSelf(m: Mem, n: Mem, x: int, h: int, slot: int, par: int)
    requires Reheads(m, n, x, h, slot, par) && (slot < h || h + 64 <= slot)
    requires var c0, c1 := Rd(m, x + CHILD), Rd(m, x + CHILD + 8);
      (c0 == 0 || Far(c0, h)) && (c1 == 0 || Far(c1, h))
    requires Rd(m, h + CHILD) == 0 && Rd(m, h + CHILD + 8) == 0
    ensures SameChainWords(m, n, h) && Rd(n, h + PARENT) == par
    ensures Rd(n, h + CHILD) == Rd(m, x + CHILD) && Rd(n, h + CHILD + 8) == Rd(m, x + CHILD + 8)
  {
  }

  /** The trie with the chain `r` at place `p`; where its chunks were is left open. */
  function Moved(t: Trie, p: Pos, r: seq<int>): Trie {
    Trie(t.at[p := r], t.loc)
  }

  /** The chain `r` may take over place `p`: its chunks are chained at no other place. */
  ghost predicate CanMove(t: Trie, sz: map<int, int>, p: Pos, r: seq<int>) {
    && p in t.at && |r| > 0
    && forall j | 0 <= j < |r| :: r[j] in sz && sz[r[j]] >= 256 && r[j] in t.loc && (t.loc[r[j]] == p || t.loc[r[j]] !in t.at)
  }

  lemma MovedFar(t: Trie, sz: map<int, int>, p: Pos, r: seq<int>, j: nat, q: Pos, k: nat)
    requires Apart(sz) && Located(t, sz) && CanMove(t, sz, p, r) && j < |r|
    requires q in t.at && q != p && k < |t.at[q]|
    ensures Far(r[j], t.at[q][k])
  {
    hide Apart;
    FarApart(sz, r[j], t.at[q][k]);
  }

  /** The child words of the node at `p` lead to heads of occupied places, or nowhere. */
  lemma ChildHead(t: Trie, sz: map<int, int>, p: Pos, c: nat)
    requires Located(t, sz) && Apart(sz) && c < 2 && p.w > 0
    ensures ChildWord(t, p, c) != 0 <==> Child(p, c) in t.at
    ensures Child(p, c) in t.at ==> ChildWord(t, p, c) == Head(t, Child(p, c)) && Head(t, Child(p, c)) > 0
  {
  }

  lemma ChildFar(t: Trie, sz: map<int, int>, p: Pos, c: nat, q: Pos, k: nat)
    requires Apart(sz) && Located(t, sz) && q in t.at && k < |t.at[q]| && Distinct(t.at[q])
    requires c < 2 && p.w > 0
    ensures FarOrSame(ChildWord(t, p, c), t.at[q][k])
    ensures ChildWord(t, p, c) == t.at[q][k] <==> k == 0 && q == Child(p, c)
  {
    hide Apart, Far, Distinct, Located;
    ChildHead(t, sz, p, c);
    HeadIn(t, sz, q);
    PositiveAt(t, sz, q, k);
    if Child(p, c) in t.at {
      HeadIn(t, sz, Child(p, c));
      if q != Child(p, c) || k != 0 {
        ChunksFar(t, sz, q, k, Child(p, c));
      }
    }
  }

  lemma ChunksFar(t: Trie, sz: map<int, int>, q: Pos, k: nat, p: Pos)
    requires Apart(sz) && Located(t, sz) && p in t.at && q in t.at && k < |t.at[q]|
    requires Distinct(t.at[q]) && (p != q || k != 0)
    ensures |t.at[p]| > 0 && Far(t.at[p][0], t.at[q][k]) && t.at[p][0] != t.at[q][k]
  {
    hide Apart;
    FarApart(sz, t.at[p][0], t.at[q][k]);
  }

  lemma PositiveAt(t: Trie, sz: map<int, int>, q: Pos, k: nat)
    requires Apart(sz) && Located(t, sz) && q in t.at && k < |t.at[q]|
    ensures t.at[q][k] > 0 && t.at[q][k] in sz && sz[t.at[q][k]] >= 256
  {
  }

  lemma MovedParent(t: Trie, p: Pos, r: seq<int>, q: Pos)
    requires p in t.at && |r| > 0
    ensures ParentWord(Moved(t, p, r), q) == if q.w < Width(q.i) && Up(q) == p then r[0] else ParentWord(t, q)
  {
    hide Width;
  }

  lemma MovedChild(t: Trie, p: Pos, r: seq<int>, q: Pos, c: nat)
    requires p in t.at && |r| > 0 && c < 2
    ensures ChildWord(Moved(t, p, r), q, c) == if q.w > 0 && Child(q, c) == p then r[0] else ChildWord(t, q, c)
  {
  }

  /** The situation before the tree links move from the node at `p` to the chain `r`. */
  ghost predicate ReheadReady(m: Mem, t: Trie, sz: map<int, int>, p: Pos, r: seq<int>) {
    && Apart(sz) && Located(t, sz) && Shaped(t) && CanMove(t, sz, p, r)
    && HeadOk(m, t, p, Head(t, p))
  }

  ghost predicate ReheadDone(m: Mem, n: Mem, t: Trie, p: Pos, h: int) {
    Reheads(m, n, Head(t, p), h, SlotAddr(t, p), ParentWord(t, p))
  }

  /** Whether the slot of `p` is a child word of member `k` at `q`. */
  ghost predicate HoldsSlot(p: Pos, q: Pos, k: nat) {
    k == 0 && q == Up(p) && p.w < Width(p.i)
  }

  lemma SlotAwayFrom(t: Trie, sz: map<int, int>, p: Pos, q: Pos, k: nat)
    requires Apart(sz) && Located(t, sz) && Shaped(t) && p in t.at
    requires q in t.at && k < |t.at[q]| && Distinct(t.at[q]) && !HoldsSlot(p, q, k)
    ensures SlotAddr(t, p) < t.at[q][k] || t.at[q][k] + 64 <= SlotAddr(t, p)
  {
    hide Apart, Width, RootQ, SlotAddr;
    assert PosOk(p);
    var y := t.at[q][k];
    SlotAway(t, sz, p, y);
    if p.w < Width(p.i) && y == Head(t, Up(p)) {
      assert t.loc[y] == q && t.loc[y] == Up(p);
    }
  }

  /** Members of other chains: only heads of the children of `p` change, in their parent word. */
  lemma ReheadMember(m: Mem, n: Mem, t: Trie, sz: map<int, int>, p: Pos, r: seq<int>, q: Pos, k: nat)
    requires ReheadReady(m, t, sz, p, r) && ReheadDone(m, n, t, p, r[0]) && p.w > 0
    requires q in t.at && q != p && k < |t.at[q]| && Distinct(t.at[q]) && !HoldsSlot(p, q, k)
    ensures var y := t.at[q][k];
      && SameChainWords(m, n, y) && Rd(n, y + CHILD) == Rd(m, y + CHILD) && Rd(n, y + CHILD + 8) == Rd(m, y + CHILD + 8)
      && Rd(n, y + PARENT) == if k == 0 && Up(q) == p then r[0] else Rd(m, y + PARENT)
  {
    hide Apart, Located, Shaped, Reheads, SlotAddr, ParentWord, ChildWord, Far, FarOrSame, Distinct, HoldsSlot,
         SameChainWords;
    var y := t.at[q][k];
    MovedFar(t, sz, p, r, 0, q, k);
    SlotAwayFrom(t, sz, p, q, k);
    ChildFar(t, sz, p, 0, q, k);
    ChildFar(t, sz, p, 1, q, k);
    PositiveAt(t, sz, q, k);
    ReheadNode(m, n, Head(t, p), r[0], SlotAddr(t, p), ParentWord(t, p), y);
    UpIsChild(p, q);
  }

  lemma UpIsChild(p: Pos, q: Pos)
    requires p.w > 0
    ensures Up(q) == p <==> q == Child(p, 0) || q == Child(p, 1)
  {
    UpChild(q);
  }

  lemma ReheadHolder(m: Mem, n: Mem, t: Trie, sz: map<int, int>, p: Pos, r: seq<int>)
    requires ReheadReady(m, t, sz, p, r) && ReheadDone(m, n, t, p, r[0]) && p.w > 0
    requires p.w < Width(p.i) && Up(p) in t.at && Distinct(t.at[Up(p)]) && |t.at[Up(p)]| > 0
    ensures var y, bit := t.at[Up(p)][0], p.q % 2;
      && SameChainWords(m, n, y) && Rd(n, y + PARENT) == Rd(m, y + PARENT)
      && Rd(n, y + CHILD + 8 * bit) == r[0] && Rd(n, y + CHILD + 8 * (1 - bit)) == Rd(m, y + CHILD + 8 * (1 - bit))
  {
    hide Apart, Located, Shaped, Reheads, SlotAddr, ParentWord, ChildWord, Far, FarOrSame, Distinct, SameChainWords,
         Width;
    var q := Up(p);
    MovedFar(t, sz, p, r, 0, q, 0);
    ChildFar(t, sz, p, 0, q, 0);
    ChildFar(t, sz, p, 1, q, 0);
    SlotInHead(t, p);
    ReheadParent(m, n, Head(t, p), r[0], SlotAddr(t, p), ParentWord(t, p), t.at[q][0], p.q % 2);
  }

  /** Every chain but the one that moves keeps its ring; its head keeps or changes tree words as required. */
  lemma ReheadElsewhere(m: Mem, n: Mem, t: Trie, sz: map<int, int>, p: Pos, r: seq<int>, q: Pos)
    requires ReheadReady(m, t, sz, p, r) && ReheadDone(m, n, t, p, r[0]) && p.w > 0
    requires q in t.at && q != p && NodeOk(m, t, q)
    ensures ChainOk(n, t.at[q], q.i)
  {
    hide ReheadReady, ReheadDone, HeadOk, Linked, Up, Width;
    var c := t.at[q];
    assert Distinct(c);
    forall k | 0 <= k < |c| ensures SameChainWords(m, n, c[k]) && (k > 0 ==> SameNode(m, n, c[k])) {
      if HoldsSlot(p, q, k) {
        HolderPlace(m, t, sz, p, r);
        ReheadHolder(m, n, t, sz, p, r);
      } else {
        ReheadMember(m, n, t, sz, p, r, q, k);
      }
    }
    ChainKept(m, n, c, q.i);
  }

  lemma HolderPlace(m: Mem, t: Trie, sz: map<int, int>, p: Pos, r: seq<int>)
    requires ReheadReady(m, t, sz, p, r) && p.w < Width(p.i)
    ensures Up(p) in t.at && |t.at[Up(p)]| > 0
  {
    hide Width, RootQ;
  }

  lemma ReheadHolderOk(m: Mem, n: Mem, t: Trie, sz: map<int, int>, p: Pos, r: seq<int>)
    requires ReheadReady(m, t, sz, p, r) && ReheadDone(m, n, t, p, r[0]) && p.w > 0
    requires p.w < Width(p.i) && Up(p) in t.at && NodeOk(m, t, Up(p))
    ensures HeadOk(n, Moved(t, p, r), Up(p), t.at[Up(p)][0])
  {
    hide Apart, Located, Shaped, ReheadDone, ParentWord, ChildWord, Width, RootQ, Linked, TailOk, Distinct;
    var q := Up(p);
    MovedParent(t, p, r, q);
    MovedChild(t, p, r, q, 0);
    MovedChild(t, p, r, q, 1);
    ChildUp(q, 0, p);
    ChildUp(q, 1, p);
    ReheadHolder(m, n, t, sz, p, r);
  }

  lemma ReheadOtherOk(m: Mem, n: Mem, t: Trie, sz: map<int, int>, p: Pos, r: seq<int>, q: Pos)
    requires ReheadReady(m, t, sz, p, r) && ReheadDone(m, n, t, p, r[0]) && p.w > 0
    requires q in t.at && q != p && q != Up(p) && NodeOk(m, t, q)
    ensures HeadOk(n, Moved(t, p, r), q, t.at[q][0])
  {
    hide Apart, Located, ReheadDone, ParentWord, ChildWord, Width, RootQ, Linked, TailOk, Distinct, ReheadReady;
    assert |r| > 0 && p in t.at by { ReadyPlace(m, t, sz, p, r); }
    ReadyWidth(m, t, sz, p, r, q);
    MovedParent(t, p, r, q);
    MovedChild(t, p, r, q, 0);
    MovedChild(t, p, r, q, 1);
    ChildUp(q, 0, p);
    ChildUp(q, 1, p);
    ReheadMember(m, n, t, sz, p, r, q, 0);
  }

  lemma ReadyPlace(m: Mem, t: Trie, sz: map<int, int>, p: Pos, r: seq<int>)
    requires ReheadReady(m, t, sz, p, r)
    ensures |r| > 0 && p in t.at && PosOk(p) && p.w > 0
  {
  }

  lemma ReadyWidth(m: Mem, t: Trie, sz: map<int, int>, p: Pos, r: seq<int>, q: Pos)
    requires ReheadReady(m, t, sz, p, r) && q in t.at
    ensures Up(q) == p ==> q.w < Width(q.i)
    ensures q.w > 0
  {
    hide Width, RootQ;
    assert PosOk(p) && PosOk(q);
  }

  lemma MovedMemberFar(m: Mem, t: Trie, sz: map<int, int>, p: Pos, r: seq<int>, j: nat, c: nat)
    requires ReheadReady(m, t, sz, p, r) && j < |r| && c < 2 && p.w > 0
    ensures ChildWord(t, p, c) == 0 || Far(ChildWord(t, p, c), r[j])
  {
    hide Apart, CanMove, Far;
    ChildHead(t, sz, p, c);
    if Child(p, c) in t.at {
      MovedFar(t, sz, p, r, j, Child(p, c), 0);
      FarSym(r[j], t.at[Child(p, c)][0]);
    }
  }

  lemma FarSym(x: int, y: int)
    ensures Far(x, y) <==> Far(y, x)
  {
  }

  lemma MovedSlotFar(m: Mem, t: Trie, sz: map<int, int>, p: Pos, r: seq<int>, j: nat)
    requires ReheadReady(m, t, sz, p, r) && j < |r|
    ensures SlotAddr(t, p) < r[j] || r[j] + 64 <= SlotAddr(t, p)
  {
    hide Apart, Width, RootQ, SlotAddr;
    assert PosOk(p);
    SlotAway(t, sz, p, r[j]);
    if p.w < Width(p.i) && r[j] == Head(t, Up(p)) {
      assert t.loc[r[j]] == Up(p);
    }
  }

  /** A chunk of the moving chain behind its head keeps all its words. */
  lemma ReheadTail(m: Mem, n: Mem, x: int, h: int, slot: int, par: int, y: int)
    requires Reheads(m, n, x, h, slot, par) && Far(h, y) && (slot < y || y + 64 <= slot)
    requires var c0, c1 := Rd(m, x + CHILD), Rd(m, x + CHILD + 8);
      (c0 == 0 || Far(c0, y)) && (c1 == 0 || Far(c1, y))
    ensures SameNode(m, n, y)
  {
  }

  lemma ReheadTails(m: Mem, n: Mem, t: Trie, sz: map<int, int>, p: Pos, r: seq<int>, j: nat)
    requires ReheadReady(m, t, sz, p, r) && ReheadDone(m, n, t, p, r[0]) && p.w > 0
    requires WideApart(r) && 0 < j < |r|
    ensures SameNode(m, n, r[j])
  {
    hide Apart, Located, Shaped, CanMove, Reheads, SlotAddr, ParentWord, ChildWord, WideApart, SameNode;
    MovedMemberFar(m, t, sz, p, r, j, 0);
    MovedMemberFar(m, t, sz, p, r, j, 1);
    MovedSlotFar(m, t, sz, p, r, j);
    WideFar(r, j);
    ReheadTail(m, n, Head(t, p), r[0], SlotAddr(t, p), ParentWord(t, p), r[j]);
  }

  lemma WideFar(r: seq<int>, j: nat)
    requires WideApart(r) && 0 < j < |r|
    ensures Far(r[0], r[j])
  {
  }

  /** The moved chain, with its head in the place of the old node. */
  lemma ReheadPlaceOk(m: Mem, n: Mem, t: Trie, sz: map<int, int>, p: Pos, r: seq<int>)
    requires ReheadReady(m, t, sz, p, r) && ReheadDone(m, n, t, p, r[0])
    requires ChainOk(m, r, p.i) && WideApart(r) && Rd(m, r[0] + CHILD) == 0 && Rd(m, r[0] + CHILD + 8) == 0
    ensures NodeOk(n, Moved(t, p, r), p)
  {
    hide Apart, Located, Shaped, CanMove, Reheads, SlotAddr, ParentWord, ChildWord, WideApart, SameNode, Linked,
         Distinct, TailOk, Far, SameChainWords, Width;
    ReadyPlace(m, t, sz, p, r);
    var h := r[0];
    forall j | 0 <= j < |r| ensures SameChainWords(m, n, r[j]) && (j > 0 ==> SameNode(m, n, r[j])) {
      if j > 0 {
        ReheadTails(m, n, t, sz, p, r, j);
        NodeChain(m, n, r[j]);
      } else {
        ReheadSelfHere(m, n, t, sz, p, r);
      }
    }
    ChainKept(m, n, r, p.i);
    ReheadSelfHere(m, n, t, sz, p, r);
    MovedParent(t, p, r, p);
    MovedChild(t, p, r, p, 0);
    MovedChild(t, p, r, p, 1);
  }

  lemma NodeChain(m: Mem, n: Mem, y: int)
    requires SameNode(m, n, y)
    ensures SameChainWords(m, n, y)
  {
  }

  lemma ReheadSelfHere(m: Mem, n: Mem, t: Trie, sz: map<int, int>, p: Pos, r: seq<int>)
    requires ReheadReady(m, t, sz, p, r) && ReheadDone(m, n, t, p, r[0]) && p.w > 0
    requires Rd(m, r[0] + CHILD) == 0 && Rd(m, r[0] + CHILD + 8) == 0
    ensures SameChainWords(m, n, r[0]) && Rd(n, r[0] + PARENT) == ParentWord(t, p)
    ensures Rd(n, r[0] + CHILD) == ChildWord(t, p, 0) && Rd(n, r[0] + CHILD + 8) == ChildWord(t, p, 1)
  {
    hide Apart, Located, Shaped, Reheads, SlotAddr, ParentWord, ChildWord, Far, SameChainWords;
    MovedMemberFar(m, t, sz, p, r, 0, 0);
    MovedMemberFar(m, t, sz, p, r, 0, 1);
    MovedSlotFar(m, t, sz, p, r, 0);
    ReheadSelf(m, n, Head(t, p), r[0], SlotAddr(t, p), ParentWord(t, p));
  }

  /** Moving the chain `r` into the place of the node at `p` leaves every node in order. */
  lemma ReheadOk(m: Mem, n: Mem, t: Trie, sz: map<int, int>, p: Pos, r: seq<int>)
    requires ReheadReady(m, t, sz, p, r) && ReheadDone(m, n, t, p, r[0])
    requires ChainOk(m, r, p.i) && WideApart(r) && Rd(m, r[0] + CHILD) == 0 && Rd(m, r[0] + CHILD + 8) == 0
    requires forall q | q in t.at && q != p :: NodeOk(m, t, q)
    ensures forall q | q in t.at :: NodeOk(n, Moved(t, p, r), q)
  {
    hide ReheadReady, ReheadDone, ChainOk, HeadOk, WideApart, Width, Up;
    ReadyPlace(m, t, sz, p, r);
    ReheadPlaceOk(m, n, t, sz, p, r);
    forall q | q in t.at && q != p ensures NodeOk(n, Moved(t, p, r), q) {
      ReheadElsewhere(m, n, t, sz, p, r, q);
      if q == Up(p) {
        UpperWidth(m, t, sz, p, r);
        ReheadHolderOk(m, n, t, sz, p, r);
      } else {
        ReheadOtherOk(m, n, t, sz, p, r, q);
      }
    }
  }

  lemma UpperWidth(m: Mem, t: Trie, sz: map<int, int>, p: Pos, r: seq<int>)
    requires ReheadReady(m, t, sz, p, r) && Up(p) in t.at
    ensures p.w < Width(p.i)
  {
    hide Width, RootQ;
    assert PosOk(p) && PosOk(Up(p));
  }

  // ----- unlink_large_chunk, put together

  /** What a node looks like depends only on which chunks are where. */
  lemma SameAt(m: Mem, t: Trie, u: Trie, q: Pos)
    requires u.at == t.at && NodeOk(m, t, q)
    ensures NodeOk(m, u, q)
  {
  }

  lemma TreeOnlyTwice(m: Mem, m': Mem, n: Mem, sz: map<int, int>, x: int)
    requires TreeOnly(m, m', sz, x) && TreeOnly(m', n, sz, x)
    ensures TreeOnly(m, n, sz, x)
  {
    hide TreeWord;
    forall a | !TreeWord(sz, a) && !(x + 16 <= a < x + 64) ensures Rd(n, a) == Rd(m, a) {
      assert Rd(n, a) == Rd(m', a);
    }
  }

  lemma SlotIsTreeWord(t: Trie, sz: map<int, int>, p: Pos)
    requires Apart(sz) && Located(t, sz) && PosOk(p) && (p.w < Width(p.i) ==> Up(p) in t.at)
    ensures TreeWord(sz, SlotAddr(t, p))
  {
    hide Apart, Located, Width, RootQ;
    if p.w < Width(p.i) {
      HeadIn(t, sz, Up(p));
      assert Owns(sz, Head(t, Up(p)), SlotAddr(t, p));
    } else {
      SlotIndex(p.i, p.i);
    }
  }

  lemma ZeroTreeOnly(m: Mem, n: Mem, t: Trie, sz: map<int, int>, p: Pos, x: int)
    requires Apart(sz) && Located(t, sz) && PosOk(p) && (p.w < Width(p.i) ==> Up(p) in t.at)
    requires Zeroes(m, n, SlotAddr(t, p))
    ensures TreeOnly(m, n, sz, x)
  {
    hide Apart, Located, Width, RootQ, SlotAddr, TreeWord;
    SlotIsTreeWord(t, sz, p);
  }

  lemma OwnWord(sz: map<int, int>, y: int, a: int)
    requires Owns(sz, y, a)
    ensures TreeWord(sz, a)
  {
  }

  lemma ReheadTreeOnly(m: Mem, n: Mem, t: Trie, sz: map<int, int>, p: Pos, r: seq<int>, x: int)
    requires ReheadReady(m, t, sz, p, r) && ReheadDone(m, n, t, p, r[0])
    ensures TreeOnly(m, n, sz, x)
  {
    hide Apart, Located, Width, RootQ, SlotAddr, ParentWord, ChildWord, TreeWord, Shaped;
    ReadyPlace(m, t, sz, p, r);
    var h := r[0];
    assert p.w < Width(p.i) ==> Up(p) in t.at by { if p.w < Width(p.i) { HolderPlace(m, t, sz, p, r); } }
    SlotIsTreeWord(t, sz, p);
    OwnWord(sz, h, h + PARENT);
    OwnWord(sz, h, h + CHILD);
    OwnWord(sz, h, h + CHILD + 8);
    ChildHeadWord(t, sz, p, 0);
    ChildHeadWord(t, sz, p, 1);
  }

  lemma ChildHeadWord(t: Trie, sz: map<int, int>, p: Pos, c: nat)
    requires Apart(sz) && Located(t, sz) && c < 2 && p.w > 0
    ensures ChildWord(t, p, c) != 0 ==> TreeWord(sz, ChildWord(t, p, c) + PARENT)
  {
    hide Apart, Located, TreeWord;
    ChildHead(t, sz, p, c);
    if Child(p, c) in t.at {
      HeadIn(t, sz, Child(p, c));
      OwnWord(sz, Head(t, Child(p, c)), Head(t, Child(p, c)) + PARENT);
    }
  }

  lemma ReheadSlot(m: Mem, n: Mem, treemap: bv32, t: Trie, sz: map<int, int>, p: Pos, r: seq<int>, i: nat)
    requires ReheadReady(m, t, sz, p, r) && ReheadDone(m, n, t, p, r[0])
    requires i < NBINS && SlotOk(m, treemap, t, i)
    ensures SlotOk(n, treemap, Moved(t, p, r), i)
  {
    hide Marked, Apart, Located, Width, RootQ, ParentWord, ChildWord, Shaped, InSlots;
    ReadyPlace(m, t, sz, p, r);
    SlotIndex(i, p.i);
    ClearOfSlots(sz, r[0]);
    ChildNotSlot(t, sz, p, 0, i);
    ChildNotSlot(t, sz, p, 1, i);
    if p.w < Width(p.i) {
      HolderPlace(m, t, sz, p, r);
      HeadIn(t, sz, Up(p));
      ClearOfSlots(sz, Head(t, Up(p)));
    }
  }

  lemma ChildNotSlot(t: Trie, sz: map<int, int>, p: Pos, c: nat, i: nat)
    requires Apart(sz) && Located(t, sz) && c < 2 && p.w > 0 && i < NBINS
    ensures ChildWord(t, p, c) != 0 ==> ChildWord(t, p, c) + PARENT != TreeBinAt(i)
  {
    hide Apart, Located;
    ChildHead(t, sz, p, c);
    if Child(p, c) in t.at {
      HeadIn(t, sz, Child(p, c));
      SlotIndex(i, i);
      ClearOfSlots(sz, Head(t, Child(p, c)));
    }
  }

  function ClearIf(root: bool, treemap: bv32, i: nat): bv32
    requires i < NBINS
  {
    if root then Clear(treemap, i) else treemap
  }

  lemma VacatedSlot(m: Mem, n: Mem, treemap: bv32, t: Trie, sz: map<int, int>, p: Pos, i: nat)
    requires Apart(sz) && Located(t, sz) && PosOk(p) && (p.w < Width(p.i) ==> Up(p) in t.at)
    requires Zeroes(m, n, SlotAddr(t, p)) && i < NBINS && SlotOk(m, treemap, t, i)
    ensures SlotOk(n, ClearIf(p.w == Width(p.i), treemap, p.i), Vacated(t, p), i)
  {
    hide Marked, Clear, Apart, Located, Width, RootQ, InSlots;
    MarkedClear(treemap, p.i, i);
    SlotIndex(i, p.i);
    if p.w < Width(p.i) {
      HeadIn(t, sz, Up(p));
      ClearOfSlots(sz, Head(t, Up(p)));
    }
  }

  lemma PlaceBin(t: Trie, p: Pos)
    requires Shaped(t) && p in t.at
    ensures p.i < NBINS && PosOk(p) && (p.w < Width(p.i) ==> Up(p) in t.at)
  {
  }

  /** Unlinking the only chunk of its size, with no node below it. */
  lemma LeafRemoved(m: Mem, n: Mem, smallmap: bv32, treemap: bv32, b: Bins, x: int, p: Pos)
    requires BinsOk(m, smallmap, treemap, b) && p in b.trie.at && b.trie.at[p] == [x] && Childless(b.trie, p)
    requires Zeroes(m, n, SlotAddr(b.trie, p))
    ensures p.i < NBINS && x in b.trie.loc && b.trie.loc[x] == p
    ensures BinsOk(n, smallmap, ClearIf(p.w == Width(p.i), treemap, p.i), DropLarge(b, x, DropLeaf(b.trie, x)))
  {
    hide Marked, ClearIf, Apart, Shaped, Placed, Keyed, Unique, Chained, Complete, SmallOk, NodeOk, SlotOk, Width,
         RootQ,
         SlotAddr, Located, Zeroes, LargeOrFresh, TreeOnly, SmallPlaced, Childless;
    var t, sz := b.trie, b.sz;
    IsLocated(t, sz);
    assert x in t.at[p];
    MemberAt(t, sz, p, x);
    var u := DropLeaf(t, x);
    var c := DropLarge(b, x, u);
    PlaceBin(t, p);
    DropLeafKeeps(t, sz, x);
    DropApart(sz, x);
    ZeroTreeOnly(m, n, t, sz, p, x);
    assert SmallOk(n, smallmap, c) by {
      SmallShape(m, smallmap, b);
      PlacedWithout(b, x, u);
      IsLarge(sz, x);
      SmallKept(m, n, smallmap, b, c, x);
    }
    forall q | q in u.at ensures NodeOk(n, u, q) {
      VacatedOk(m, n, t, sz, p, q);
      SameAt(n, Vacated(t, p), u, q);
    }
    var map' := ClearIf(p.w == Width(p.i), treemap, p.i);
    forall i | 0 <= i < NBINS ensures SlotOk(n, map', u, i) {
      VacatedSlot(m, n, treemap, t, sz, p, i);
      SameSlot(n, map', Vacated(t, p), u, i);
    }
  }

  lemma IsLarge(sz: map<int, int>, x: int)
    requires x in sz && sz[x] >= 256
    ensures LargeOrFresh(sz, x)
  {
  }

  lemma SameSlot(m: Mem, treemap: bv32, t: Trie, u: Trie, i: nat)
    requires u.at == t.at && i < NBINS && SlotOk(m, treemap, t, i)
    ensures SlotOk(m, treemap, u, i)
  {
  }

  /** The chain left at the place of a node that leaves: its last member comes first. */
  function Remaining(r: seq<int>): seq<int>
    requires |r| > 1
  {
    Rotated(Without(r, 0))
  }

  lemma RemainingAt(r: seq<int>, j: nat)
    requires |r| > 1 && j < |r| - 1
    ensures |Remaining(r)| == |r| - 1
    ensures Remaining(r)[j] == r[if j == 0 then |r| - 1 else j]
  {
  }

  lemma RemainingLeaves(r: seq<int>)
    requires |r| > 1 && Distinct(r)
    ensures LeavesBehind(r, r[0], Remaining(r))
  {
    var s := Remaining(r);
    assert |s| == |r| - 1;
    forall y ensures y in s <==> y in r && y != r[0] {
      if y in s {
        var j :| 0 <= j < |s| && s[j] == y;
        RemainingAt(r, j);
      }
      if y in r && y != r[0] {
        var j :| 0 <= j < |r| && r[j] == y;
        var k := if j == |r| - 1 then 0 else j;
        RemainingAt(r, k);
        assert s[k] == y;
      }
    }
  }

  lemma RemainingWide(r: seq<int>)
    requires |r| > 1 && WideApart(r)
    ensures WideApart(Remaining(r))
  {
    hide Remaining;
    var s := Remaining(r);
    RemainingAt(r, 0);
    forall j, k | 0 <= j < k < |s| ensures s[j] + 256 <= s[k] || s[k] + 256 <= s[j] {
      RemainingAt(r, j);
      RemainingAt(r, k);
    }
  }

  lemma OutTails(m: Mem, m': Mem, r: seq<int>, i: nat, j: nat)
    requires ChainOk(m, r, i) && 0 < j < |r| && SameTreeWords(m, m', r[j])
    ensures TailOk(m', r[j]) && Rd(m', r[j] + INDEX) == i
  {
    hide Linked, Distinct;
    assert TailOk(m, r[j]);
  }

  lemma IndexSame(m: Mem, n: Mem, y: int)
    requires SameTreeWords(m, n, y)
    ensures Rd(n, y + INDEX) == Rd(m, y + INDEX)
  {
  }

  lemma RemainingOk(m: Mem, m': Mem, r: seq<int>, i: nat)
    requires |r| > 1 && ChainOk(m, r, i) && Spaced(r) && WideApart(r)
    requires LinksOut(m, m', Rd(m, r[0] + BK), Rd(m, r[0] + FD))
    ensures ChainOk(m', Remaining(r), i) && WideApart(Remaining(r))
    ensures |Remaining(r)| == |r| - 1 && Remaining(r)[0] == r[|r| - 1] == Rd(m, r[0] + BK)
    ensures TailOk(m', r[|r| - 1]) && SameTreeWords(m, m', r[0]) && Rd(m', r[0] + INDEX) == i
    ensures Rd(m, r[0] + FD) == r[1]
  {
    hide Linked, Spaced, WideApart, LinksOut, SameTreeWords, TailOk, Distinct, Without, Rotated;
    var s := Remaining(r);
    OutChain(m, m', r, 0, i);
    WithoutAt(r, 0, 0);
    Rotate(m', Without(r, 0));
    SpacedDistinct(s);
    RemainingWide(r);
    RemainingAt(r, 0);
    OutTails(m, m', r, i, |r| - 1);
    IndexSame(m, m', r[0]);
    forall j | 0 <= j < |s| ensures Rd(m', s[j] + INDEX) == i && TailOk(m', s[j]) {
      RemainingAt(r, j);
      OutTails(m, m', r, i, if j == 0 then |r| - 1 else j);
    }
  }

  lemma HeadSame(m: Mem, n: Mem, t: Trie, p: Pos, y: int)
    requires HeadOk(m, t, p, y) && SameTreeWords(m, n, y)
    ensures HeadOk(n, t, p, y)
  {
    hide ParentWord, ChildWord;
  }

  lemma CanMoveOwn(t: Trie, sz: map<int, int>, p: Pos, r: seq<int>)
    requires Located(t, sz) && p in t.at && |r| > 0 && forall y | y in r :: y in t.at[p]
    ensures CanMove(t, sz, p, r)
  {
    hide Located;
    forall j | 0 <= j < |r|
      ensures r[j] in sz && sz[r[j]] >= 256 && r[j] in t.loc && t.loc[r[j]] == p
    {
      assert r[j] in r;
      MemberAt(t, sz, p, r[j]);
    }
  }

  /** The first half of unlinking a node that has a chain: the chain closes up. */
  lemma HeadClosed(m: Mem, m': Mem, treemap: bv32, b: Bins, p: Pos)
    requires Apart(b.sz) && TreeOk(m, treemap, b) && p in b.trie.at && |b.trie.at[p]| > 1
    requires var x := b.trie.at[p][0]; LinksOut(m, m', Rd(m, x + BK), Rd(m, x + FD))
    ensures var t, r := b.trie, Remaining(b.trie.at[p]);
      && |r| > 0 && ReheadReady(m', t, b.sz, p, r) && ChainOk(m', r, p.i) && WideApart(r) && TailOk(m', r[0])
      && r[0] == Rd(m, t.at[p][0] + BK) && LeavesBehind(t.at[p], t.at[p][0], r)
      && (forall q | q in t.at && q != p :: NodeOk(m', t, q))
      && (forall i | 0 <= i < NBINS :: SlotOk(m', treemap, t, i))
      && TreeOnly(m, m', b.sz, t.at[p][0])
      && Rd(m', t.at[p][0] + INDEX) == p.i
  {
    hide Marked, Apart, WellFormed, HeadOk, Located, OnlyNodes, WideApart, Spaced, AtOrFresh, SlotWord,
         Linked, LinksOut, Remaining, LeavesBehind, TailOk, TreeOnly, LargeOrFresh, CanMove, SameTreeWords;
    var t, sz, r := b.trie, b.sz, b.trie.at[p];
    var x := r[0];
    IsLocated(t, sz);
    assert NodeOk(m, t, p);
    ChainMembersAt(m, t, sz, p);
    RemainingOk(m, m', r, p.i);
    RemainingLeaves(r);
    var f, e := Rd(m, x + FD), Rd(m, x + BK);
    MemberAt(t, sz, p, x);
    MemberAt(t, sz, p, f);
    MemberAt(t, sz, p, e);
    OutOnly(m, m', e, f, x);
    NodesTreeOnly(m, m', t, sz, p, e, f, x);
    HeadSame(m, m', t, p, x);
    assert CanMove(t, sz, p, Remaining(r)) by {
      RemainingIn(r);
      CanMoveOwn(t, sz, p, Remaining(r));
    }
    SelfHeads(t, sz);
    WfShaped(t, sz);
    forall q | q in t.at && q != p ensures NodeOk(m', t, q) {
      ElsewhereOk(m, m', t, t, sz, p, e, f, x, q);
    }
    forall i | 0 <= i < NBINS ensures SlotOk(m', treemap, t, i) {
      assert SlotOk(m, treemap, t, i);
      NodesSlot(m, m', t, sz, p, e, f, x, i);
    }
  }

  lemma RemainingIn(r: seq<int>)
    requires |r| > 1
    ensures forall y | y in Remaining(r) :: y in r
  {
    forall y | y in Remaining(r) ensures y in r {
      RemainingAt(r, 0);
      var j :| 0 <= j < |Remaining(r)| && Remaining(r)[j] == y;
      RemainingAt(r, j);
    }
  }

  lemma SelfHeads(t: Trie, sz: map<int, int>)
    requires Located(t, sz)
    ensures SameHeads(t, t)
  {
  }

  lemma WfShaped(t: Trie, sz: map<int, int>)
    requires WellFormed(t, sz)
    ensures Shaped(t)
  {
  }

  /** The second half, common to both ways of finding a replacement: the chain `r` moves to the place
      of `x`, and the bins are in order without `x`. */
  lemma MoveDone(m: Mem, m': Mem, n: Mem, smallmap: bv32, treemap: bv32, b: Bins, t: Trie, x: int, p: Pos, r: seq<int>,
                 u: Trie)
    requires Apart(b.sz) && SmallOk(m, smallmap, b) && x in b.sz && b.sz[x] >= 256
    requires ReheadReady(m', t, b.sz, p, r) && ReheadDone(m', n, t, p, r[0])
    requires ChainOk(m', r, p.i) && WideApart(r) && Rd(m', r[0] + CHILD) == 0 && Rd(m', r[0] + CHILD + 8) == 0
    requires forall q | q in t.at && q != p :: NodeOk(m', t, q)
    requires forall i | 0 <= i < NBINS :: SlotOk(m', treemap, t, i)
    requires TreeOnly(m, m', b.sz, x)
    requires u.at == Moved(t, p, r).at && WellFormed(u, b.sz - {x})
    ensures BinsOk(n, smallmap, treemap, DropLarge(b, x, u))
  {
    hide Marked, Apart, WellFormed, SmallOk, NodeOk, SlotOk, ChainOk, WideApart, ReheadReady, ReheadDone, TreeOnly,
         LargeOrFresh, SmallPlaced;
    var sz, c := b.sz, DropLarge(b, x, u);
    ReadyPlace(m', t, sz, p, r);
    ReheadOk(m', n, t, sz, p, r);
    ReheadTreeOnly(m', n, t, sz, p, r, x);
    TreeOnlyTwice(m, m', n, sz, x);
    DropApart(sz, x);
    SmallShape(m, smallmap, b);
    PlacedWithout(b, x, u);
    IsLarge(sz, x);
    SmallKept(m, n, smallmap, b, c, x);
    forall q | q in u.at ensures NodeOk(n, u, q) {
      SameAt(n, Moved(t, p, r), u, q);
    }
    forall i | 0 <= i < NBINS ensures SlotOk(n, treemap, u, i) {
      ReheadSlot(m', n, treemap, t, sz, p, r, i);
      SameSlot(n, treemap, Moved(t, p, r), u, i);
    }
  }

  /** Unlinking a node with a chain: its last chained chunk becomes the node. */
  lemma HeadRemoved(m: Mem, m': Mem, n: Mem, smallmap: bv32, treemap: bv32, b: Bins, p: Pos)
    requires BinsOk(m, smallmap, treemap, b) && p in b.trie.at && |b.trie.at[p]| > 1
    requires var x := b.trie.at[p][0];
      && LinksOut(m, m', Rd(m, x + BK), Rd(m, x + FD))
      && Reheads(m', n, x, Rd(m, x + BK), SlotAddr(b.trie, p), ParentWord(b.trie, p))
    ensures var x := b.trie.at[p][0];
      && x in b.trie.loc && b.trie.loc[x] == p
      && BinsOk(n, smallmap, treemap, DropLarge(b, x, DropMember(b.trie, x, Remaining(b.trie.at[p]))))
  {
    hide Marked, Apart, Shaped, Placed, Keyed, Unique, Chained, Complete, SmallOk, NodeOk, SlotOk, ChainOk, WideApart,
         ReheadReady, TreeOnly, LinksOut, Reheads,
         Remaining, LeavesBehind, SlotAddr, ParentWord, Located;
    var t, sz, r := b.trie, b.sz, Remaining(b.trie.at[p]);
    var x := t.at[p][0];
    HeadClosed(m, m', treemap, b, p);
    IsLocated(t, sz);
    MemberAt(t, sz, p, x);
    var u := DropMember(t, x, r);
    MemberKeeps(t, sz, x, r);
    MoveDone(m, m', n, smallmap, treemap, b, t, x, p, r, u);
  }

  lemma VacatedShape(t: Trie, sz: map<int, int>, l: Pos)
    requires Shaped(t) && Located(t, sz) && Childless(t, l)
    ensures Shaped(Vacated(t, l)) && Located(Vacated(t, l), sz)
  {
    hide Width, RootQ;
    var u := Vacated(t, l);
    forall q | q in u.at ensures q.w < Width(q.i) ==> Up(q) in u.at {
      ChildlessParent(t, l, q);
      assert PosOk(q);
    }
  }

  lemma ChildlessWords(t: Trie, l: Pos)
    requires Childless(t, l)
    ensures ChildWord(t, l, 0) == 0 && ChildWord(t, l, 1) == 0
  {
  }

  /** Vacating a place below `p` does not change what leads to `p`. */
  lemma AboveVacated(t: Trie, l: Pos, p: Pos)
    requires Below(l, p)
    ensures SlotAddr(Vacated(t, l), p) == SlotAddr(t, p)
    ensures ParentWord(Vacated(t, l), p) == ParentWord(t, p)
    ensures Head(Vacated(t, l), p) == Head(t, p)
  {
    hide Width;
  }

  lemma CanMoveFrom(t: Trie, sz: map<int, int>, l: Pos, p: Pos)
    requires Located(t, sz) && l in t.at && p in t.at && l != p
    ensures CanMove(Vacated(t, l), sz, p, t.at[l])
  {
  }

  /** The first half of unlinking a node with nodes below it: a leaf comes off. */
  lemma LeafTaken(m: Mem, m': Mem, treemap: bv32, b: Bins, x: int, p: Pos, l: Pos)
    requires Apart(b.sz) && TreeOk(m, treemap, b) && x in b.trie.loc && b.trie.loc[x] == p && CanReplace(b.trie, x, l)
    requires Zeroes(m, m', SlotAddr(b.trie, l))
    ensures var t, r := Vacated(b.trie, l), b.trie.at[l];
      && |r| > 0 && ReheadReady(m', t, b.sz, p, r) && ChainOk(m', r, p.i) && WideApart(r)
      && Rd(m', r[0] + CHILD) == 0 && Rd(m', r[0] + CHILD + 8) == 0
      && (forall q | q in t.at && q != p :: NodeOk(m', t, q))
      && (forall i | 0 <= i < NBINS :: SlotOk(m', treemap, t, i))
      && TreeOnly(m, m', b.sz, x)
      && Head(t, p) == x && Rd(m', x + INDEX) == p.i
  {
    hide Marked, ClearIf, Apart, WellFormed, SlotOk, Width, RootQ, SlotAddr, ParentWord, ChildWord, Located, Zeroes,
         WideApart, TreeOnly, Childless,
         CanMove, Spaced, Linked, Distinct, TailOk, Shaped, Vacated;
    var t, sz, r := b.trie, b.sz, b.trie.at[l];
    var t' := Vacated(t, l);
    IsLocated(t, sz);
    WfShaped(t, sz);
    PlaceBin(t, l);
    BelowNotRoot(t, l, p);
    VacatedShape(t, sz, l);
    ChildlessWords(t, l);
    CanMoveFrom(t, sz, l, p);
    ZeroTreeOnly(m, m', t, sz, l, x);
    forall q | q in t.at ensures q != l ==> NodeOk(m', t', q) ensures q == l ==> NodeOk(m', t, l) {
      assert NodeOk(m, t, q);
      VacatedOk(m, m', t, sz, l, q);
    }
    assert NodeOk(m, t, l);
    ChainMembersAt(m, t, sz, l);
    VacatedKeys(t, l);
    AboveVacated(t, l, p);
    assert NodeOk(m', t', p);
    forall i | 0 <= i < NBINS ensures SlotOk(m', treemap, t', i) {
      assert SlotOk(m, treemap, t, i);
      VacatedSlot(m, m', treemap, t, sz, l, i);
      assert ClearIf(false, treemap, l.i) == treemap by { NotCleared(treemap, l.i); }
    }
  }

  lemma NotCleared(treemap: bv32, i: nat)
    requires i < NBINS
    ensures ClearIf(false, treemap, i) == treemap
  {
  }

  lemma VacatedKeys(t: Trie, l: Pos)
    ensures forall q :: q in Vacated(t, l).at <==> q in t.at && q != l
    ensures forall q | q in t.at && q != l :: Vacated(t, l).at[q] == t.at[q]
  {
  }

  lemma BelowNotRoot(t: Trie, l: Pos, p: Pos)
    requires Shaped(t) && l in t.at && p in t.at && Below(l, p)
    ensures l.w < Width(l.i) && l != p && l.i == p.i
  {
    hide Width, RootQ;
    assert PosOk(p);
  }

  /** Unlinking the only chunk of its size, with nodes below it: the chain of a leaf takes its place. */
  lemma InnerRemoved(m: Mem, m': Mem, n: Mem, smallmap: bv32, treemap: bv32, b: Bins, x: int, p: Pos, l: Pos)
    requires BinsOk(m, smallmap, treemap, b) && x in b.trie.loc && b.trie.loc[x] == p && CanReplace(b.trie, x, l)
    requires Zeroes(m, m', SlotAddr(b.trie, l))
    requires Reheads(m', n, x, Head(b.trie, l), SlotAddr(b.trie, p), ParentWord(b.trie, p))
    ensures BinsOk(n, smallmap, treemap, DropLarge(b, x, Replace(b.trie, x, l)))
  {
    hide Marked, Apart, Shaped, Placed, Keyed, Unique, Chained, Complete, SmallOk, NodeOk, SlotOk, ChainOk, WideApart,
         ReheadReady, TreeOnly, Zeroes, Reheads,
         SlotAddr, ParentWord, Located, Vacated, Replace, Below, Childless;
    var t, sz, r := b.trie, b.sz, b.trie.at[l];
    var t', u := Vacated(t, l), Replace(t, x, l);
    LeafTaken(m, m', treemap, b, x, p, l);
    AboveVacated(t, l, p);
    IsLocated(t, sz);
    assert x in t.at[p];
    MemberAt(t, sz, p, x);
    ReplaceKeeps(t, sz, x, l);
    ReplaceAt(t, x, l);
    MoveDone(m, m', n, smallmap, treemap, b, t', x, p, r, u);
  }

  lemma ReplaceAt(t: Trie, x: int, l: Pos)
    requires x in t.loc && l in t.at
    ensures Replace(t, x, l).at == Moved(Vacated(t, l), t.loc[x], t.at[l]).at
  {
  }

  // ----- Which words change

  lemma TreeWithin(m: Mem, n: Mem, sz: map<int, int>, x: int, tz: map<int, int>)
    requires Apart(tz) && TreeOnly(m, n, sz, x) && x in tz && tz[x] >= 256
    requires forall y | y in sz :: y in tz && tz[y] == sz[y]
    ensures Within(m, n, tz)
  {
    forall w | !BinArea(w) && (forall y :: !Interior(tz, y, w)) ensures Rd(n, w) == Rd(m, w) {
      assert !Interior(tz, x, w);
      forall y ensures !Owns(sz, y, w) {
        assert !Interior(tz, y, w);
      }
      assert !TreeWord(sz, w);
    }
  }
}
