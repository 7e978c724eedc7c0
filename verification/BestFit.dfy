/** The searches of tmalloc_large and tmalloc_small, turn by turn. */
module BestFit {
  import opened Memory
  import opened Bits
  import opened BinMap
  import opened Tries
  import opened Bins
  import opened TreeBins
  import opened TreeReads
  import opened BinSteps

  /** Subtraction of `size_t` values. */
  function Sub64(a: int, b: int): int {
    if a >= b then a - b else a - b + W64
  }

  /** The best chunk so far: none yet, with a remainder no chunk can reach, or `v` with remainder `r`. */
  ghost predicate Best(t: Trie, sz: map<int, int>, nb: int, v: int, r: int) {
    && 0 < nb < W64
    && (v == 0 ==> r == W64 - nb)
    && (v != 0 ==> v in t.loc && v in sz && sz[v] == nb + r && r >= 0)
  }

  /** Every chunk at or below `p` is large enough. */
  ghost predicate Enough(t: Trie, sz: map<int, int>, nb: int, p: Pos) {
    forall y | y in sz && Under(t, sz, y, p) :: sz[y] >= nb
  }

  /** What weighing the node at an occupied place does to the best chunk so far. */
  lemma Weigh(m: Mem, smallmap: bv32, treemap: bv32, b: Bins, nb: int, v: int, r: int, p: Pos, least: int)
    requires BinsReady(m, smallmap, treemap, b, least) && Best(b.trie, b.sz, nb, v, r) && p in b.trie.at
    ensures var t, h := b.trie, Head(b.trie, p);
      var rem := Sub64(ChunkSize(Rd(m, h + HEAD)), nb);
      && h != 0 && h >= least && rem >= 0 && r >= 0
      && ChunkSize(Rd(m, h + HEAD)) == SizeAt(t, b.sz, p)
      && (nb <= SizeAt(t, b.sz, p) ==> rem == SizeAt(t, b.sz, p) - nb)
      && (nb > SizeAt(t, b.sz, p) ==> rem >= r)
      && (rem < r ==> Best(t, b.sz, nb, h, rem))
      && h in b.sz && LargeSize(b.sz[h]) && TreeIndex(b.sz[h]) == p.i
  {
    hide Marked, SmallOk, TreeOk, Apart, ParentWord, ChildWord, SizeAt, TreeIndex, WellFormed;
    NodeWords(m, treemap, b, p);
    UnfoldTree(m, treemap, b);
    HeadBin(b.trie, b.sz, p);
    BestBound(m, treemap, b, nb, v, r);
  }

  lemma BestBound(m: Mem, treemap: bv32, b: Bins, nb: int, v: int, r: int)
    requires TreeOk(m, treemap, b) && Best(b.trie, b.sz, nb, v, r)
    ensures 0 <= r <= W64 - nb
  {
    hide Path, Shaped, Placed, Unique, Chained, Complete;
  }

  /** The two child words of an occupied place. */
  lemma ChildrenRead(m: Mem, smallmap: bv32, treemap: bv32, b: Bins, p: Pos, c: nat, least: int)
    requires BinsReady(m, smallmap, treemap, b, least) && p in b.trie.at && c < 2
    ensures p.w > 0
    ensures Rd(m, Head(b.trie, p) + CHILD + 8 * c) != 0 <==> Child(p, c) in b.trie.at
    ensures Child(p, c) in b.trie.at ==> Rd(m, Head(b.trie, p) + CHILD + 8 * c) == Head(b.trie, Child(p, c))
  {
    hide Marked, SmallOk, TreeOk, Apart, ParentWord, ChildWord, SizeAt, WellFormed;
    NodeWords(m, treemap, b, p);
    UnfoldTree(m, treemap, b);
    ChildReads(b, p, c);
  }

  // ----- The walk towards a node of exactly the wanted size

  /** The state of the walk at the node at height `w`; `rst` is the head of the subtree `o` last set
      aside, or null if there is none. */
  ghost predicate Walking(t: Trie, sz: map<int, int>, nb: int, v: int, r: int, w: nat, rst: int, o: Pos) {
    && LargeSize(nb) && Best(t, sz, nb, v, r) && Walk(t, sz, nb, r, w, o, rst != 0)
    && (rst != 0 ==> rst == Head(t, o))
    && w <= Width(TreeIndex(nb))
    && (v != 0 ==> TreeIndex(sz[v]) == TreeIndex(nb))
  }

  lemma WalkBegins(m: Mem, smallmap: bv32, treemap: bv32, b: Bins, nb: int, o: Pos, least: int)
    requires BinsReady(m, smallmap, treemap, b, least) && LargeSize(nb) && TreeIndex(nb) < NBINS
    requires Rd(m, TreeBinAt(TreeIndex(nb))) != 0
    ensures var i := TreeIndex(nb);
      && Path(nb, Width(i)) in b.trie.at && Rd(m, TreeBinAt(i)) == Head(b.trie, Path(nb, Width(i)))
      && Walking(b.trie, b.sz, nb, 0, W64 - nb, Width(i), 0, o)
      && Width(i) <= 64 && LeftShiftForTreeIndex(i) == 64 - Width(i)
  {
    hide Marked, SmallOk, Apart, WellFormed, NodeOk, Sh, TreeIndex, Under, Beyond;
    var i := TreeIndex(nb);
    assert SlotOk(m, treemap, b.trie, i);
    RootPrefix(nb);
    WalkStart(b.trie, b.sz, nb, W64 - nb, o);
  }

  /** An empty bin: nothing in it can do. */
  lemma NoWalk(m: Mem, smallmap: bv32, treemap: bv32, b: Bins, nb: int, least: int)
    requires BinsReady(m, smallmap, treemap, b, least) && LargeSize(nb) && TreeIndex(nb) < NBINS
    requires Rd(m, TreeBinAt(TreeIndex(nb))) == 0
    ensures HigherOnly(b.trie, b.sz, nb, W64 - nb)
  {
    hide Marked, SmallOk, Apart, NodeOk, Sh, TreeIndex, Width, RootQ, WellFormed, SizeTags, Root;
    var t, i := b.trie, TreeIndex(nb);
    assert SlotOk(m, treemap, t, i);
    UnfoldTree(m, treemap, b);
    IsLocated(t, b.sz);
    assert Root(i) in t.at ==> Head(t, Root(i)) > 0 by { if Root(i) in t.at { PositiveHead(t, b.sz, Root(i)); } }
    forall y | y in t.loc && y in b.sz && nb <= b.sz[y] ensures TreeIndex(nb) < TreeIndex(b.sz[y]) {
      TreeIndexMono(nb, b.sz[y]);
      UnderRoot(t, b.sz, y);
    }
  }

  /** What may still beat a remainder of `r` is in higher bins. */
  ghost predicate HigherOnly(t: Trie, sz: map<int, int>, nb: int, r: int) {
    nb >= 0 && forall y | y in t.loc && y in sz && nb <= sz[y] < nb + r :: TreeIndex(nb) < TreeIndex(sz[y])
  }

  /** One turn of the walk, the node at height `w` having been weighed: where the loop goes next. */
  lemma WalkTurn(t: Trie, sz: map<int, int>, nb: int, v: int, r: int, w: nat, rst: int, o: Pos, rst': int)
    requires WellFormed(t, sz) && Walking(t, sz, nb, v, r, w, rst, o) && w > 0 && Path(nb, w) in t.at
    requires nb <= SizeAt(t, sz, Path(nb, w)) ==> r <= SizeAt(t, sz, Path(nb, w)) - nb
    requires var right := Child(Path(nb, w), 1);
      rst' == if Sh(nb, w - 1) % 2 == 0 && right in t.at then Head(t, right) else rst
    requires forall p | p in t.at :: Head(t, p) != 0
    ensures var o' := if Sh(nb, w - 1) % 2 == 0 && Child(Path(nb, w), 1) in t.at then Child(Path(nb, w), 1) else o;
      Walking(t, sz, nb, v, r, w - 1, rst', o')
  {
    hide WellFormed, Sh, SizeAt, TreeIndex, Walk, Width, Best;
    BestPositive(t, sz, nb, v, r);
    var right := Child(Path(nb, w), 1);
    var o' := if Sh(nb, w - 1) % 2 == 0 && right in t.at then right else o;
    WalkStep(t, sz, nb, r, w, o, rst != 0, o', rst' != 0);
  }

  lemma HeadsSet(m: Mem, smallmap: bv32, treemap: bv32, b: Bins, least: int)
    requires BinsReady(m, smallmap, treemap, b, least)
    ensures forall p | p in b.trie.at :: Head(b.trie, p) != 0
  {
    hide Marked, SmallOk, Apart, NodeOk, SlotOk, WellFormed, SizeTags;
    UnfoldTree(m, treemap, b);
    IsLocated(b.trie, b.sz);
    forall p | p in b.trie.at ensures Head(b.trie, p) != 0 {
      PositiveHead(b.trie, b.sz, p);
    }
  }

  /** The state of the leftmost walk: `u` is the head of the place `q` still to be weighed, or null when
      no chunk can beat the best one. */
  ghost predicate Descending(t: Trie, sz: map<int, int>, nb: int, v: int, r: int, u: int, q: Pos) {
    && Best(t, sz, nb, v, r)
    && (u == 0 ==> NoneTighter(t, sz, nb, r))
    && (u != 0 ==> q in t.at && u == Head(t, q) && Pending(t, sz, nb, r, q) && (r > 0 ==> Enough(t, sz, nb, q)))
  }

  /** The walk has fallen off the trie: the subtree set aside, if any, is next. */
  lemma WalkOver(t: Trie, sz: map<int, int>, nb: int, v: int, r: int, w: nat, rst: int, o: Pos)
    requires WellFormed(t, sz) && Walking(t, sz, nb, v, r, w, rst, o) && Path(nb, w) !in t.at
    ensures rst != 0 ==> Descending(t, sz, nb, v, r, rst, o)
    ensures rst == 0 ==> HigherOnly(t, sz, nb, r)
  {
    hide WellFormed, Sh, SizeAt, TreeIndex, Walk, Width, Pending, Under, Enough, Best;
    assert nb >= 0 by { BestPositive(t, sz, nb, v, r); }
    WalkEnd(t, sz, nb, r, w, o, rst != 0);
    if rst != 0 {
      assert Aside(t, nb, w, o) by { WalkAside(t, sz, nb, r, w, o); }
      AsideEnough(t, sz, nb, w, o);
    }
  }

  lemma BestPositive(t: Trie, sz: map<int, int>, nb: int, v: int, r: int)
    requires Best(t, sz, nb, v, r)
    ensures nb >= 0
  {
  }

  lemma WalkAside(t: Trie, sz: map<int, int>, nb: int, r: int, w: nat, o: Pos)
    requires Walk(t, sz, nb, r, w, o, true)
    ensures Aside(t, nb, w, o)
  {
  }

  lemma AsideEnough(t: Trie, sz: map<int, int>, nb: int, w: nat, o: Pos)
    requires Aside(t, nb, w, o)
    ensures Enough(t, sz, nb, o)
  {
    hide Sh, TreeIndex;
    forall y | y in sz && Under(t, sz, y, o) ensures sz[y] >= nb {
      PrefixOrder(nb, sz[y], o.w);
    }
  }

  /** An exact fit ends the search. */
  lemma ExactFit(t: Trie, sz: map<int, int>, nb: int, v: int, u: int, q: Pos)
    requires Best(t, sz, nb, v, 0) && q in t.at && u == Head(t, q) && u != 0
    ensures Descending(t, sz, nb, v, 0, u, q)
  {
  }

  /** A best chunk in hand beats everything in higher bins. */
  lemma HigherLoses(m: Mem, treemap: bv32, b: Bins, nb: int, v: int, r: int)
    requires TreeOk(m, treemap, b) && Best(b.trie, b.sz, nb, v, r) && v != 0 && HigherOnly(b.trie, b.sz, nb, r)
    requires TreeIndex(b.sz[v]) == TreeIndex(nb)
    ensures NoneTighter(b.trie, b.sz, nb, r)
  {
    hide Marked, NodeOk, SlotOk, Sh, TreeIndex, WellFormed;
    forall y | y in b.trie.loc && y in b.sz && b.sz[y] >= nb ensures b.sz[y] - nb >= r {
      if b.sz[y] < nb + r {
        BinsOrdered(b.sz[v], b.sz[y]);
      }
    }
  }

  /** A better node becomes the best chunk of the walk. */
  lemma WalkBetter(t: Trie, sz: map<int, int>, nb: int, v: int, r: int, w: nat, rst: int, o: Pos, v': int, r': int)
    requires Walking(t, sz, nb, v, r, w, rst, o) && r' <= r && Best(t, sz, nb, v', r')
    requires v' != 0 ==> v' in sz && sz[v'] >= 0 && TreeIndex(sz[v']) == TreeIndex(nb)
    ensures Walking(t, sz, nb, v', r', w, rst, o)
  {
    hide Sh, TreeIndex, Width, Under, Beyond, Best;
  }

  // ----- The next bin, and the leftmost walk

  /** The next marked bin above that of `nb`, when nothing in the latter can do. */
  lemma NextBin(m: Mem, smallmap: bv32, treemap: bv32, b: Bins, nb: int, v: int, r: int, i: nat, least: int)
    requires BinsReady(m, smallmap, treemap, b, least) && Best(b.trie, b.sz, nb, v, r)
    requires HigherOnly(b.trie, b.sz, nb, r)
    requires FirstMarked(treemap, TreeIndex(nb) + 1, i)
    ensures Descending(b.trie, b.sz, nb, v, r, Rd(m, TreeBinAt(i)), Root(i))
    ensures Rd(m, TreeBinAt(i)) != 0
  {
    hide Marked, SmallOk, Apart, NodeOk, Sh, TreeIndex, Width, RootQ, WellFormed, SizeTags, Pending, Enough, Best, Root;
    var t := b.trie;
    assert SlotOk(m, treemap, t, i);
    UnfoldTree(m, treemap, b);
    IsLocated(t, b.sz);
    PositiveHead(t, b.sz, Root(i));
    forall y | y in t.loc && y in b.sz && nb <= b.sz[y] < nb + r ensures i <= TreeIndex(b.sz[y]) {
      UnderRoot(t, b.sz, y);
      BinMarked(m, treemap, b, y);
    }
    NextBinPending(t, b.sz, nb, r, i);
    HigherEnough(t, b.sz, nb, i);
  }

  lemma BinMarked(m: Mem, treemap: bv32, b: Bins, y: int)
    requires TreeOk(m, treemap, b) && y in b.trie.loc
    ensures y in b.sz && LargeSize(b.sz[y]) && TreeIndex(b.sz[y]) < NBINS && Marked(treemap, TreeIndex(b.sz[y]))
  {
    hide Marked, NodeOk, Sh, TreeIndex, Width, RootQ, WellFormed, Root;
    UnderRoot(b.trie, b.sz, y);
    TreeIndexBound(b.sz[y]);
    assert SlotOk(m, treemap, b.trie, TreeIndex(b.sz[y]));
  }

  lemma HigherEnough(t: Trie, sz: map<int, int>, nb: int, i: nat)
    requires nb >= 0 && TreeIndex(nb) < i
    ensures Enough(t, sz, nb, Root(i))
  {
    hide TreeIndex, Sh, Width, RootQ;
    forall y | y in sz && Under(t, sz, y, Root(i)) ensures sz[y] >= nb {
      BinsOrdered(nb, sz[y]);
    }
  }

  /** No marked bin above: nothing can beat the best chunk. */
  lemma NoNextBin(m: Mem, smallmap: bv32, treemap: bv32, b: Bins, nb: int, r: int, least: int)
    requires BinsReady(m, smallmap, treemap, b, least) && HigherOnly(b.trie, b.sz, nb, r)
    requires NoneFrom(treemap, TreeIndex(nb) + 1)
    ensures NoneTighter(b.trie, b.sz, nb, r)
  {
    hide Marked, SmallOk, Apart, Sh, TreeIndex, SizeTags, TreeOk;
    forall y | y in b.trie.loc && y in b.sz && b.sz[y] >= nb ensures b.sz[y] - nb >= r {
      BinMarked(m, treemap, b, y);
    }
  }

  /** One turn of the leftmost walk, the node at `q` having been weighed. */
  lemma DescendTurn(t: Trie, sz: map<int, int>, nb: int, v: int, r: int, q: Pos, u': int)
    requires WellFormed(t, sz) && Best(t, sz, nb, v, r) && q in t.at && q.w > 0 && Pending(t, sz, nb, r, q)
    requires r > 0 ==> Enough(t, sz, nb, q)
    requires nb <= SizeAt(t, sz, q) ==> r <= SizeAt(t, sz, q) - nb
    requires forall p | p in t.at :: Head(t, p) != 0
    requires u' == if Leftmost(t, q) in t.at then Head(t, Leftmost(t, q)) else 0
    ensures Descending(t, sz, nb, v, r, u', Leftmost(t, q))
  {
    hide WellFormed, Sh, SizeAt, TreeIndex, Pending, Best, Enough, NoneTighter;
    if r > 0 {
      EnoughHead(t, sz, nb, q);
    }
    LeftmostStep(t, sz, nb, r, q);
    if r > 0 {
      EnoughChild(t, sz, nb, q, Leftmost(t, q));
    }
  }

  lemma EnoughHead(t: Trie, sz: map<int, int>, nb: int, q: Pos)
    requires WellFormed(t, sz) && q in t.at && Enough(t, sz, nb, q)
    ensures nb <= SizeAt(t, sz, q)
  {
    hide WellFormed, SizeAt, Under;
    HeadUnder(t, sz, q);
    UnderIn(t, sz, t.at[q][0], q);
  }

  lemma UnderIn(t: Trie, sz: map<int, int>, y: int, q: Pos)
    requires Under(t, sz, y, q)
    ensures y in sz
  {
  }

  lemma EnoughChild(t: Trie, sz: map<int, int>, nb: int, q: Pos, c: Pos)
    requires Enough(t, sz, nb, q) && q.w > 0 && (c == Child(q, 0) || c == Child(q, 1))
    ensures Enough(t, sz, nb, c)
  {
    hide TreeIndex, Sh;
    forall y | y in sz && Under(t, sz, y, c) ensures sz[y] >= nb {
      UnderParent(t, sz, y, q, c);
    }
  }

  lemma UnderParent(t: Trie, sz: map<int, int>, y: int, q: Pos, c: Pos)
    requires q.w > 0 && (c == Child(q, 0) || c == Child(q, 1)) && Under(t, sz, y, c)
    ensures Under(t, sz, y, q)
  {
    hide TreeIndex, Sh;
    ShStep(sz[y], c.w);
  }

  lemma PendingLess(t: Trie, sz: map<int, int>, nb: int, r: int, r': int, q: Pos)
    requires Pending(t, sz, nb, r, q) && r' <= r
    ensures Pending(t, sz, nb, r', q)
  {
    hide Under, SizeAt;
  }

  // ----- Whole turns, from memory

  /** The place set aside after one turn of the walk. */
  ghost function NextAside(t: Trie, nb: int, w: nat, o: Pos): Pos
    requires nb >= 0 && w > 0
  {
    if Sh(nb, w - 1) % 2 == 0 && Child(Path(nb, w), 1) in t.at then Child(Path(nb, w), 1) else o
  }

  /** The words that one turn of the walk reads at the node at height `w`. */
  lemma WalkChildren(m: Mem, smallmap: bv32, treemap: bv32, b: Bins, nb: int, w: nat, least: int)
    requires BinsReady(m, smallmap, treemap, b, least) && LargeSize(nb) && Path(nb, w) in b.trie.at && w <= 64
    ensures w > 0
    ensures var t, p := b.trie, Path(nb, w);
      var right := Child(p, 1);
      var rt := Rd(m, Head(t, p) + CHILD + 8);
      var u := Rd(m, Head(t, p) + CHILD + 8 * (Sh(nb, w - 1) % 2));
      && (u != 0 <==> Path(nb, w - 1) in t.at)
      && (u != 0 ==> u == Head(t, Path(nb, w - 1)))
      && (rt != 0 && rt != u <==> Sh(nb, w - 1) % 2 == 0 && right in t.at)
      && (right in t.at ==> rt == Head(t, right))
  {
    hide BinsReady, Sh, SizeAt, TreeIndex;
    var t, p := b.trie, Path(nb, w);
    ChildrenRead(m, smallmap, treemap, b, p, 0, least);
    ChildrenRead(m, smallmap, treemap, b, p, 1, least);
    HeadsSet(m, smallmap, treemap, b, least);
    PathDown(nb, w);
    if Child(p, 0) in t.at && Child(p, 1) in t.at {
      DistinctHeads(m, smallmap, treemap, b, Child(p, 0), Child(p, 1), least);
    }
  }

  /** One turn of the first loop of tmalloc_large, from the node at height `w` and with `r` already
      no larger than its remainder. */
  lemma WalkMemory(m: Mem, smallmap: bv32, treemap: bv32, b: Bins, nb: int, v: int, r: int, w: nat, rst: int, o: Pos,
                   least: int)
    requires BinsReady(m, smallmap, treemap, b, least) && Walking(b.trie, b.sz, nb, v, r, w, rst, o)
    requires Path(nb, w) in b.trie.at && w <= 64 && nb >= 0
    requires nb <= SizeAt(b.trie, b.sz, Path(nb, w)) ==> r <= SizeAt(b.trie, b.sz, Path(nb, w)) - nb
    ensures w > 0
    ensures var h := Head(b.trie, Path(nb, w));
      var rt := Rd(m, h + CHILD + 8);
      var u := Rd(m, h + CHILD + 8 * (Shl(nb, 64 - w) / 0x8000_0000_0000_0000));
      var rst', o' := if rt != 0 && rt != u then rt else rst, NextAside(b.trie, nb, w, o);
      && Walking(b.trie, b.sz, nb, v, r, w - 1, rst', o')
      && (u != 0 ==> Path(nb, w - 1) in b.trie.at && u == Head(b.trie, Path(nb, w - 1)))
      && (u == 0 ==> Path(nb, w - 1) !in b.trie.at)
      && Shl(nb, 64 - (w - 1)) == (2 * Shl(nb, 64 - w)) % W64
  {
    hide BinsReady, Sh, Shl, SizeAt, TreeIndex, Walking, Width, WellFormed, TreeOk, Apart, Child;
    var t := b.trie;
    assert LargeSize(nb) by { WalkingSize(b, nb, v, r, w, rst, o); }
    WalkChildren(m, smallmap, treemap, b, nb, w, least);
    HeadsSet(m, smallmap, treemap, b, least);
    SignBit(nb, 64 - w);
    NextShl(nb, 64 - w);
    ReadyTree(m, smallmap, treemap, b, least);
    WalkTurn(t, b.sz, nb, v, r, w, rst, o,
             if Sh(nb, w - 1) % 2 == 0 && Child(Path(nb, w), 1) in t.at then Head(t, Child(Path(nb, w), 1)) else rst);
  }

  lemma WalkingSize(b: Bins, nb: int, v: int, r: int, w: nat, rst: int, o: Pos)
    requires Walking(b.trie, b.sz, nb, v, r, w, rst, o)
    ensures LargeSize(nb)
  {
  }

  lemma ReadyTree(m: Mem, smallmap: bv32, treemap: bv32, b: Bins, least: int)
    requires BinsReady(m, smallmap, treemap, b, least)
    ensures WellFormed(b.trie, b.sz) && Apart(b.sz) && TreeOk(m, treemap, b)
  {
    hide WellFormed, NodeOk, SlotOk, SmallOk;
  }

  lemma DistinctHeads(m: Mem, smallmap: bv32, treemap: bv32, b: Bins, p: Pos, q: Pos, least: int)
    requires BinsReady(m, smallmap, treemap, b, least) && p in b.trie.at && q in b.trie.at && p != q
    ensures Head(b.trie, p) != Head(b.trie, q)
  {
    hide BinsReady, WellFormed, TreeOk, Apart;
    ReadyTree(m, smallmap, treemap, b, least);
    IsLocated(b.trie, b.sz);
    OnlyHead(b.trie, b.sz, p, q);
  }

  /** One turn of the leftmost walk. */
  lemma DescendMemory(m: Mem, smallmap: bv32, treemap: bv32, b: Bins, nb: int, v: int, r: int, v': int, r': int,
                      u: int, q: Pos, least: int)
    requires BinsReady(m, smallmap, treemap, b, least) && Descending(b.trie, b.sz, nb, v, r, u, q) && u != 0
    requires Best(b.trie, b.sz, nb, v', r') && r' <= r
    requires nb <= SizeAt(b.trie, b.sz, q) ==> r' <= SizeAt(b.trie, b.sz, q) - nb
    ensures q.w > 0
    ensures var c0, c1 := Rd(m, u + CHILD), Rd(m, u + CHILD + 8);
      var u' := if c0 != 0 then c0 else c1;
      Descending(b.trie, b.sz, nb, v', r', u', Leftmost(b.trie, q)) && Leftmost(b.trie, q).w < q.w
  {
    hide BinsReady, Sh, SizeAt, TreeIndex, Best, Pending, Enough, NoneTighter, WellFormed, TreeOk, Apart;
    var t := b.trie;
    ChildrenRead(m, smallmap, treemap, b, q, 0, least);
    ChildrenRead(m, smallmap, treemap, b, q, 1, least);
    HeadsSet(m, smallmap, treemap, b, least);
    ReadyTree(m, smallmap, treemap, b, least);
    PendingLess(t, b.sz, nb, r, r', q);
    ChildLower(q);
    assert r' > 0 ==> Enough(t, b.sz, nb, q);
    DescendTurn(t, b.sz, nb, v', r', q, if Leftmost(t, q) in t.at then Head(t, Leftmost(t, q)) else 0);
  }

  /** Weighing the node of the walk: the best chunk stays the best of its bin. */
  lemma WalkWeigh(m: Mem, smallmap: bv32, treemap: bv32, b: Bins, nb: int, v: int, r: int, w: nat, rst: int, o: Pos,
                  least: int)
    requires BinsReady(m, smallmap, treemap, b, least) && Walking(b.trie, b.sz, nb, v, r, w, rst, o)
    requires Path(nb, w) in b.trie.at && nb >= 0
    ensures var t, h := b.trie, Head(b.trie, Path(nb, w));
      var rem := Sub64(ChunkSize(Rd(m, h + HEAD)), nb);
      var v', r' := if rem < r then h else v, if rem < r then rem else r;
      && h != 0
      && Walking(t, b.sz, nb, v', r', w, rst, o)
      && (nb <= SizeAt(t, b.sz, Path(nb, w)) ==> r' <= SizeAt(t, b.sz, Path(nb, w)) - nb)
      && (r' == 0 ==> Descending(t, b.sz, nb, v', r', h, Path(nb, w)))
  {
    hide BinsReady, Sh, SizeAt, TreeIndex, Walk, Width, Pending, Enough;
    var t, h := b.trie, Head(b.trie, Path(nb, w));
    Weigh(m, smallmap, treemap, b, nb, v, r, Path(nb, w), least);
    var rem := Sub64(ChunkSize(Rd(m, h + HEAD)), nb);
    var v', r' := if rem < r then h else v, if rem < r then rem else r;
    WalkBetter(t, b.sz, nb, v, r, w, rst, o, v', r');
    if r' == 0 {
      ExactFit(t, b.sz, nb, v', h, Path(nb, w));
    }
  }

  lemma DescendWeigh(m: Mem, smallmap: bv32, treemap: bv32, b: Bins, nb: int, v: int, r: int, u: int, q: Pos,
                     least: int)
    requires BinsReady(m, smallmap, treemap, b, least) && Descending(b.trie, b.sz, nb, v, r, u, q) && u != 0
    ensures var t := b.trie;
      var rem := Sub64(ChunkSize(Rd(m, u + HEAD)), nb);
      var v', r' := if rem < r then u else v, if rem < r then rem else r;
      Best(t, b.sz, nb, v', r') && (nb <= SizeAt(t, b.sz, q) ==> r' <= SizeAt(t, b.sz, q) - nb)
  {
    hide BinsReady, Sh, SizeAt, TreeIndex, Best, Pending, Enough;
    Weigh(m, smallmap, treemap, b, nb, v, r, q, least);
  }

  /** The walk ends below its last node. */
  lemma WalkLeft(m: Mem, smallmap: bv32, treemap: bv32, b: Bins, nb: int, v: int, r: int, w: nat, rst: int, o: Pos,
                 least: int)
    requires BinsReady(m, smallmap, treemap, b, least) && nb >= 0 && Walking(b.trie, b.sz, nb, v, r, w, rst, o)
    requires Path(nb, w) !in b.trie.at
    ensures rst != 0 ==> Descending(b.trie, b.sz, nb, v, r, rst, o)
    ensures rst == 0 && v == 0 ==> HigherOnly(b.trie, b.sz, nb, r)
    ensures rst == 0 && v != 0 ==> Descending(b.trie, b.sz, nb, v, r, 0, o)
  {
    hide BinsReady, Sh, TreeIndex, Walk, Width, Best, Pending, Enough, WellFormed, TreeOk, Apart;
    ReadyTree(m, smallmap, treemap, b, least);
    WalkOver(b.trie, b.sz, nb, v, r, w, rst, o);
    if rst == 0 && v != 0 {
      HigherLoses(m, treemap, b, nb, v, r);
    }
  }

  // ----- tmalloc_small

  /** The root of the first marked bin, for a request smaller than any tree chunk. */
  lemma SmallestBin(m: Mem, smallmap: bv32, treemap: bv32, b: Bins, nb: int, i: nat, least: int)
    requires BinsReady(m, smallmap, treemap, b, least) && 0 < nb < 256 && FirstMarked(treemap, 0, i)
    ensures Descending(b.trie, b.sz, nb, 0, W64 - nb, Rd(m, TreeBinAt(i)), Root(i))
    ensures Rd(m, TreeBinAt(i)) != 0
  {
    hide Marked, SmallOk, Apart, NodeOk, Sh, TreeIndex, Width, RootQ, WellFormed, SizeTags, Pending, Enough, Root;
    var t := b.trie;
    assert SlotOk(m, treemap, t, i);
    UnfoldTree(m, treemap, b);
    IsLocated(t, b.sz);
    PositiveHead(t, b.sz, Root(i));
    forall y | y in t.loc && y in b.sz && nb <= b.sz[y] ensures i <= TreeIndex(b.sz[y]) {
      UnderRoot(t, b.sz, y);
      BinMarked(m, treemap, b, y);
    }
    NextBinPending(t, b.sz, nb, W64 - nb, i);
    AllEnough(t, b.sz, nb, Root(i));
  }

  lemma AllEnough(t: Trie, sz: map<int, int>, nb: int, p: Pos)
    requires WellFormed(t, sz) && nb < 256
    ensures Enough(t, sz, nb, p)
  {
    hide Path, Shaped, Placed, Unique, Chained;
    forall y | y in sz && Under(t, sz, y, p) ensures sz[y] >= nb {
      UnderLoc(t, sz, y, p);
    }
  }

  lemma UnderLoc(t: Trie, sz: map<int, int>, y: int, p: Pos)
    requires Under(t, sz, y, p)
    ensures y in t.loc
  {
  }

  lemma RootBound(m: Mem, smallmap: bv32, treemap: bv32, b: Bins, nb: int, q: Pos, least: int)
    requires BinsReady(m, smallmap, treemap, b, least) && q in b.trie.at && 0 < nb < 256
    ensures nb < SizeAt(b.trie, b.sz, q) < W64
  {
    hide BinsReady, WellFormed, TreeOk, Apart;
    ReadyTree(m, smallmap, treemap, b, least);
    HeadBin(b.trie, b.sz, q);
  }

  lemma RootWeigh(m: Mem, smallmap: bv32, treemap: bv32, b: Bins, nb: int, u: int, q: Pos, least: int)
    requires BinsReady(m, smallmap, treemap, b, least) && Descending(b.trie, b.sz, nb, 0, W64 - nb, u, q) && u != 0
    requires 0 < nb < 256
    ensures var r := ChunkSize(Rd(m, u + HEAD)) - nb;
      Best(b.trie, b.sz, nb, u, r) && r <= W64 - nb && (nb <= SizeAt(b.trie, b.sz, q) ==> r <= SizeAt(b.trie, b.sz, q) - nb)
  {
    hide BinsReady, Sh, SizeAt, TreeIndex, Pending, Enough;
    Weigh(m, smallmap, treemap, b, nb, 0, W64 - nb, q, least);
    RootBound(m, smallmap, treemap, b, nb, q, least);
  }
}
