/** What a walk through the tries reads from memory. */
module TreeReads {
  import opened Memory
  import opened Bits
  import opened BinMap
  import opened Ring
  import opened Tries
  import opened Bins
  import opened TreeBins

  /** The words of the node at an occupied place. */
  lemma NodeWords(m: Mem, treemap: bv32, b: Bins, p: Pos)
    requires Apart(b.sz) && TreeOk(m, treemap, b) && p in b.trie.at
    ensures PosOk(p)
    ensures var t, h := b.trie, Head(b.trie, p);
      && |t.at[p]| > 0 && h == t.at[p][0] && h > 0
      && h in t.loc && t.loc[h] == p && h in b.sz && b.sz[h] == SizeAt(t, b.sz, p) && LargeSize(b.sz[h])
      && Rd(m, h + CHILD) == ChildWord(t, p, 0) && Rd(m, h + CHILD + 8) == ChildWord(t, p, 1)
      && Rd(m, h + PARENT) == ParentWord(t, p) && Rd(m, h + INDEX) == p.i
  {
    hide Apart, Shaped, Keyed, Placed, Unique, Chained, Complete, Linked, Distinct, TailOk, ParentWord, ChildWord,
         SlotOk, Path;
    assert NodeOk(m, b.trie, p);
    WfShaped(b.trie, b.sz);
    PlaceBin(b.trie, p);
    ChainIn(b.trie, b.sz, p, 0);
    IsLocated(b.trie, b.sz);
    PositiveAt(b.trie, b.sz, p, 0);
  }

  lemma ChildReads(b: Bins, p: Pos, c: nat)
    requires Apart(b.sz) && WellFormed(b.trie, b.sz) && p.w > 0 && c < 2
    ensures ChildWord(b.trie, p, c) != 0 <==> Child(p, c) in b.trie.at
    ensures Child(p, c) in b.trie.at ==> ChildWord(b.trie, p, c) == Head(b.trie, Child(p, c))
  {
    hide Apart, WellFormed;
    IsLocated(b.trie, b.sz);
    ChildHead(b.trie, b.sz, p, c);
  }

  /** The search for the place of size `s` has come down to the node at height `w`. */
  ghost predicate Searching(t: Trie, sz: map<int, int>, s: int, w: nat) {
    LargeSize(s) && 4 <= w <= Width(TreeIndex(s)) && Path(s, w) in t.at && NoneAbove(t, sz, s, w)
  }

  lemma SearchStart(m: Mem, treemap: bv32, b: Bins, s: int)
    requires TreeOk(m, treemap, b) && LargeSize(s) && TreeIndex(s) < NBINS && Marked(treemap, TreeIndex(s))
    ensures Searching(b.trie, b.sz, s, Width(TreeIndex(s)))
    ensures Root(TreeIndex(s)) == Path(s, Width(TreeIndex(s)))
    ensures Rd(m, TreeBinAt(TreeIndex(s))) == Head(b.trie, Path(s, Width(TreeIndex(s))))
  {
    hide Marked, WellFormed, NodeOk, Sh, TreeIndex, NoneAbove;
    assert SlotOk(m, treemap, b.trie, TreeIndex(s));
    RootPrefix(s);
    NoneAboveRoot(b.trie, b.sz, s);
  }

  /** From a node of another size the search goes on to a child, or finds the slot to fill. */
  lemma SearchStep(t: Trie, sz: map<int, int>, s: int, w: nat)
    requires WellFormed(t, sz) && Searching(t, sz, s, w) && SizeAt(t, sz, Path(s, w)) != s
    ensures w > 4
    ensures Child(Path(s, w), Sh(s, w - 1) % 2) == Path(s, w - 1)
    ensures Path(s, w - 1) in t.at ==> Searching(t, sz, s, w - 1)
    ensures Path(s, w - 1) !in t.at ==>
      && CanHang(t, Path(s, w - 1)) && (forall y | y in t.loc :: y in sz && sz[y] != s)
      && Path(s, w - 1).w < Width(Path(s, w - 1).i)
  {
    hide Shaped, Keyed, Placed, Unique, Chained, Complete, Sh, TreeIndex, NoneAbove, SizeAt, RootQ, Width;
    if w == 4 {
      BottomNode(t, sz, s);
    }
    PassNode(t, sz, s, w);
    PathDown(s, w);
    if Path(s, w - 1) !in t.at {
      FellOff(t, sz, s, w - 1);
      KnownSizes(t, sz);
      WfShaped(t, sz);
      PlaceBin(t, Path(s, w));
      UpOfChild(Path(s, w), Sh(s, w - 1) % 2);
    }
  }

  lemma KnownSizes(t: Trie, sz: map<int, int>)
    requires WellFormed(t, sz)
    ensures forall y | y in t.loc :: y in sz
  {
    hide Path;
  }

  /** The slot below a node, in terms of the node. */
  lemma SlotBelow(t: Trie, s: nat, w: nat)
    requires w > 0 && w - 1 < Width(TreeIndex(s)) && Path(s, w) in t.at && |t.at[Path(s, w)]| > 0
    ensures SlotAddr(t, Path(s, w - 1)) == Head(t, Path(s, w)) + CHILD + 8 * (Sh(s, w - 1) % 2)
    ensures ParentWord(t, Path(s, w - 1)) == Head(t, Path(s, w))
  {
    hide Width, TreeIndex, Sh;
    PathDown(s, w);
    UpOfChild(Path(s, w), Sh(s, w - 1) % 2);
  }

  /** The slot of an empty bin. */
  lemma EmptyBin(m: Mem, treemap: bv32, b: Bins, s: int)
    requires TreeOk(m, treemap, b) && LargeSize(s) && TreeIndex(s) < NBINS && !Marked(treemap, TreeIndex(s))
    ensures var p := Root(TreeIndex(s));
      && p == Path(s, p.w) && CanHang(b.trie, p) && (forall y | y in b.trie.loc :: y in b.sz && b.sz[y] != s)
      && SlotAddr(b.trie, p) == TreeBinAt(TreeIndex(s)) && ParentWord(b.trie, p) == TreeBinAt(TreeIndex(s))
  {
    hide Marked, Shaped, Keyed, Placed, Unique, Chained, Complete, NodeOk, Sh, TreeIndex, NoneAbove;
    assert SlotOk(m, treemap, b.trie, TreeIndex(s));
    RootPrefix(s);
    NoneAboveRoot(b.trie, b.sz, s);
    FellOff(b.trie, b.sz, s, Width(TreeIndex(s)));
    KnownSizes(b.trie, b.sz);
  }
}
