/** insert_small_chunk, unlink_small_chunk and unlink_first_small_chunk, seen as changes of the bins. */
module SmallBins {
  import opened Memory
  import opened BinMap
  import opened Ring
  import opened Tries
  import opened Bins

  /** A chunk that may be added to the bins: clear of the state and of every binned chunk. */
  ghost predicate Fresh(sz: map<int, int>, x: int, s: int) {
    && x > 0 && s >= 32 && s % 16 == 0 && ClearOfState(x, s)
    && x !in sz && forall y | y in sz :: x + s <= y || y + sz[y] <= x
  }

  ghost predicate SmallSize(s: int) {
    32 <= s < 256 && s % 16 == 0
  }

  /** The bins with the small chunk `x` at the front of its bin. */
  function AddSmall(b: Bins, x: int, s: int): Bins
    requires SmallSize(s) && |b.small| == NBINS
  {
    Bins(b.sz[x := s], b.small[s / 8 := [x] + b.small[s / 8]], b.trie)
  }

  /** The bins without the chunk at position `k` of small bin `i`. */
  function DropSmall(b: Bins, i: nat, k: nat): Bins
    requires i < |b.small| && k < |b.small[i]|
  {
    Bins(b.sz - {b.small[i][k]}, b.small[i := Without(b.small[i], k)], b.trie)
  }

  /** `e` is a bin header or a chunk, and none of its link words belongs to `y`. */
  ghost predicate Away(sz: map<int, int>, e: int, y: int)
    requires y in sz
  {
    e + 32 <= y || y + sz[y] <= e
  }

  /** Only link words of `h`, `f` and `x` differ. */
  ghost predicate TouchesLinks(m: Mem, n: Mem, h: int, f: int, x: int) {
    forall a {:trigger Rd(n, a)} ::
      a != h + FD && a != h + BK && a != f + FD && a != f + BK && !(x + FD <= a < x + 32) ==> Rd(n, a) == Rd(m, a)
  }

  lemma AwayNode(m: Mem, n: Mem, sz: map<int, int>, h: int, f: int, x: int, y: int)
    requires TouchesLinks(m, n, h, f, x) && y in sz && sz[y] >= 256
    requires Away(sz, h, y) && Away(sz, f, y) && Away(sz, x, y)
    ensures SameNode(m, n, y)
  {
  }

  /** `e` is the header of small bin `i`, or a small chunk of bin `i`. */
  ghost predicate InSmallBin(b: Bins, e: int, i: nat)
    requires i < NBINS && |b.small| == NBINS
  {
    e == SmallBinAt(i) || (e in b.sz && b.sz[e] < 256 && e in b.small[i])
  }

  lemma SmallAway(b: Bins, e: int, i: nat, y: int)
    requires Apart(b.sz) && i < NBINS && |b.small| == NBINS && InSmallBin(b, e, i) && y in b.sz && b.sz[y] >= 256
    ensures Away(b.sz, e, y)
  {
  }

  /** Touching only links of one small bin and of a chunk outside the bins leaves the tries alone. */
  lemma TreeUntouched(m: Mem, n: Mem, treemap: bv32, b: Bins, h: int, f: int, x: int, i: nat)
    requires Apart(b.sz) && TreeOk(m, treemap, b) && i < NBINS && |b.small| == NBINS
    requires TouchesLinks(m, n, h, f, x) && InSmallBin(b, h, i) && InSmallBin(b, f, i)
    requires InSmallBin(b, x, i) || Fresh(b.sz, x, 32)
    ensures forall p | p in b.trie.at :: NodeOk(n, b.trie, p)
    ensures forall j | 0 <= j < NBINS :: SlotOk(n, treemap, b.trie, j)
  {
    hide Marked, NodeOk, Apart, WellFormed, SameNode, TouchesLinks, Away, InSmallBin, Fresh;
    forall p | p in b.trie.at ensures NodeOk(n, b.trie, p) {
      forall j | 0 <= j < |b.trie.at[p]| ensures SameNode(m, n, b.trie.at[p][j]) {
        var y := b.trie.at[p][j];
        ChainIn(b.trie, b.sz, p, j);
        SmallAway(b, h, i, y);
        SmallAway(b, f, i, y);
        assert Away(b.sz, x, y) by {
          if InSmallBin(b, x, i) { SmallAway(b, x, i, y); } else { FreshAway(b.sz, x, y); }
        }
        AwayNode(m, n, b.sz, h, f, x, y);
      }
      NodeFrame(m, n, b.trie, b.trie, p);
    }
    forall j | 0 <= j < NBINS ensures SlotOk(n, treemap, b.trie, j) {
      assert SlotOk(m, treemap, b.trie, j);
      SlotUntouched(m, n, b, h, f, x, i, j);
    }
  }

  lemma FreshAway(sz: map<int, int>, x: int, y: int)
    requires Fresh(sz, x, 32) && y in sz
    ensures Away(sz, x, y)
  {
  }

  lemma SlotUntouched(m: Mem, n: Mem, b: Bins, h: int, f: int, x: int, i: nat, j: nat)
    requires Apart(b.sz) && i < NBINS && j < NBINS && |b.small| == NBINS
    requires TouchesLinks(m, n, h, f, x) && InSmallBin(b, h, i) && InSmallBin(b, f, i)
    requires InSmallBin(b, x, i) || Fresh(b.sz, x, 32)
    ensures Rd(n, TreeBinAt(j)) == Rd(m, TreeBinAt(j))
  {
  }

  lemma OtherBin(m: Mem, n: Mem, b: Bins, h: int, f: int, x: int, i: nat, j: nat)
    requires Apart(b.sz) && |b.small| == NBINS && SmallPlaced(b) && i < NBINS && j < NBINS && i != j
    requires TouchesLinks(m, n, h, f, x) && InSmallBin(b, h, i) && InSmallBin(b, f, i)
    requires InSmallBin(b, x, i) || Fresh(b.sz, x, 32)
    ensures SameLinks(m, n, [SmallBinAt(j)] + b.small[j])
  {
    var r := [SmallBinAt(j)] + b.small[j];
    forall k | 0 <= k < |r| ensures Rd(n, r[k] + FD) == Rd(m, r[k] + FD) && Rd(n, r[k] + BK) == Rd(m, r[k] + BK) {
      if k > 0 {
        var y := b.small[j][k - 1];
        assert r[k] == y && y in b.sz && b.sz[y] == 8 * j;
        OtherApart(b, h, i, j, y);
        OtherApart(b, f, i, j, y);
        if InSmallBin(b, x, i) { OtherApart(b, x, i, j, y); }
      } else {
        HeaderApart(b, h, i, j);
        HeaderApart(b, f, i, j);
        if InSmallBin(b, x, i) { HeaderApart(b, x, i, j); }
      }
    }
  }

  /** A member of bin `i` and a chunk of bin `j` are at least 16 bytes apart. */
  lemma OtherApart(b: Bins, e: int, i: nat, j: nat, y: int)
    requires Apart(b.sz) && |b.small| == NBINS && SmallPlaced(b) && i < NBINS && j < NBINS && i != j
    requires InSmallBin(b, e, i) && y in b.sz && b.sz[y] == 8 * j
    ensures e + 16 <= y || y + 16 <= e
  {
    if e in b.small[i] {
      var k :| 0 <= k < |b.small[i]| && b.small[i][k] == e;
    }
  }

  lemma HeaderApart(b: Bins, e: int, i: nat, j: nat)
    requires Apart(b.sz) && |b.small| == NBINS && i < NBINS && j < NBINS && i != j && InSmallBin(b, e, i)
    ensures var g := SmallBinAt(j); e + 16 <= g || g + 16 <= e
  {
  }

  /** The ring of one bin, header included, is spaced. */
  lemma BinSpaced(b: Bins, i: nat)
    requires Apart(b.sz) && |b.small| == NBINS && SmallPlaced(b) && i < NBINS
    ensures Spaced([SmallBinAt(i)] + b.small[i])
  {
    var r := [SmallBinAt(i)] + b.small[i];
    forall j, k | 0 <= j < k < |r| ensures r[j] + 16 <= r[k] || r[k] + 16 <= r[j] {
      var y := b.small[i][k - 1];
      assert r[k] == y && y in b.sz;
      if j > 0 {
        var z := b.small[i][j - 1];
        assert r[j] == z && z in b.sz && z != y;
      }
    }
  }

  // ----- Insertion

  lemma AddApart(sz: map<int, int>, x: int, s: int)
    requires Apart(sz) && Fresh(sz, x, s)
    ensures Apart(sz[x := s])
  {
  }

  lemma AddPlaced(b: Bins, x: int, s: int)
    requires |b.small| == NBINS && SmallPlaced(b) && SmallSize(s) && x !in b.sz
    ensures SmallPlaced(AddSmall(b, x, s))
  {
    var c, i := AddSmall(b, x, s), s / 8;
    forall j, k | 0 <= j < NBINS && 0 <= k < |c.small[j]|
      ensures c.small[j][k] in c.sz && c.sz[c.small[j][k]] == 8 * j
    {
      if j == i && k > 0 {
        assert c.small[j][k] == b.small[i][k - 1];
      }
    }
    forall y | y in c.sz && c.sz[y] < 256 ensures 0 <= c.sz[y] / 8 < NBINS && y in c.small[c.sz[y] / 8] {
      if y != x {
        assert y in b.small[b.sz[y] / 8];
      } else {
        assert c.small[i][0] == x;
      }
    }
    assert forall k | 0 <= k < |b.small[i]| :: b.small[i][k] != x;
    assert Distinct(b.small[i]);
    assert Distinct([x] + b.small[i]);
  }

  lemma SmallKeyed(t: Trie, sz: map<int, int>, x: int, s: int)
    requires WellFormed(t, sz) && x !in sz && SmallSize(s)
    ensures WellFormed(t, sz[x := s])
  {
    hide Path, Shaped, Placed;
    assert forall y | y in t.loc :: y in sz;
  }

  lemma FreshClear(b: Bins, x: int, s: int, i: nat)
    requires Apart(b.sz) && |b.small| == NBINS && SmallPlaced(b) && i < NBINS && Fresh(b.sz, x, s)
    ensures ClearOf([SmallBinAt(i)] + b.small[i], x, 32)
  {
    var r := [SmallBinAt(i)] + b.small[i];
    forall k | 0 <= k < |r| ensures x + 16 <= r[k] || r[k] + 16 <= x {
      if k > 0 {
        assert r[k] == b.small[i][k - 1];
      }
    }
  }

  /** The successor of the header that insert_small_chunk uses: the header itself in an empty bin. */
  function FirstOf(m: Mem, b: Bins, i: nat): int
    requires |b.small| == NBINS && i < NBINS
  {
    if b.small[i] == [] then SmallBinAt(i) else Rd(m, SmallBinAt(i) + FD)
  }

  lemma FirstInBin(m: Mem, smallmap: bv32, b: Bins, i: nat)
    requires SmallOk(m, smallmap, b) && i < NBINS
    ensures InSmallBin(b, SmallBinAt(i), i) && InSmallBin(b, FirstOf(m, b, i), i)
    ensures b.small[i] != [] ==> FirstOf(m, b, i) == b.small[i][0] && FirstOf(m, b, i) in b.sz
  {
    hide Marked;
    assert SmallBinOk(m, smallmap, b.small[i], i);
    if b.small[i] != [] {
      var r := [SmallBinAt(i)] + b.small[i];
      assert Link(m, r, 0);
      assert r[1] == b.small[i][0];
    }
  }

  lemma InsertedRing(m: Mem, n: Mem, smallmap: bv32, b: Bins, x: int, s: int)
    requires Apart(b.sz) && SmallOk(m, smallmap, b) && SmallSize(s) && Fresh(b.sz, x, s)
    requires LinksIn(m, n, SmallBinAt(s / 8), FirstOf(m, b, s / 8), x, 32)
    ensures Linked(n, [SmallBinAt(s / 8)] + ([x] + b.small[s / 8]))
  {
    hide Marked, Apart, SmallPlaced, Spaced, Linked, LinksIn, ClearOf, Fresh;
    var i := s / 8;
    var r := [SmallBinAt(i)] + b.small[i];
    assert SmallBinOk(m, smallmap, b.small[i], i);
    if b.small[i] == [] {
      assert [SmallBinAt(i)] + ([x] + b.small[i]) == [SmallBinAt(i), x];
      Pair(m, n, SmallBinAt(i), x);
    } else {
      BinSpaced(b, i);
      FreshClear(b, x, s, i);
      Insert(m, n, r, x, 32);
      assert With(r, x) == [SmallBinAt(i)] + ([x] + b.small[i]);
    }
  }

  lemma Pair(m: Mem, n: Mem, h: int, x: int)
    requires LinksIn(m, n, h, h, x, 32)
    ensures Linked(n, [h, x])
  {
  }

  lemma InTouches(m: Mem, n: Mem, h: int, f: int, x: int)
    requires LinksIn(m, n, h, f, x, 32)
    ensures TouchesLinks(m, n, h, f, x)
  {
  }

  lemma FreshShort(sz: map<int, int>, x: int, s: int)
    requires Fresh(sz, x, s)
    ensures Fresh(sz, x, 32)
  {
  }

  /** insert_small_chunk adds `x` to the front of its bin and keeps the bins in order. */
  lemma Inserted(m: Mem, n: Mem, smallmap: bv32, treemap: bv32, b: Bins, x: int, s: int)
    requires BinsOk(m, smallmap, treemap, b) && SmallSize(s) && Fresh(b.sz, x, s)
    requires LinksIn(m, n, SmallBinAt(s / 8), FirstOf(m, b, s / 8), x, 32)
    ensures BinsOk(n, if Marked(smallmap, s / 8) then smallmap else Mark(smallmap, s / 8), treemap, AddSmall(b, x, s))
  {
    hide Marked, Mark, Apart, WellFormed, SmallPlaced, Fresh, LinksIn, NodeOk, SlotOk, InSmallBin, Linked, FirstOf,
         SameLinks;
    var i, c := s / 8, AddSmall(b, x, s);
    var map' := if Marked(smallmap, i) then smallmap else Mark(smallmap, i);
    var h, f := SmallBinAt(i), FirstOf(m, b, i);
    FirstInBin(m, smallmap, b, i);
    InTouches(m, n, h, f, x);
    FreshShort(b.sz, x, s);
    TreeUntouched(m, n, treemap, b, h, f, x, i);
    FreshNot(b.sz, x, s);
    SmallKeyed(b.trie, b.sz, x, s);
    AddApart(b.sz, x, s);
    AddPlaced(b, x, s);
    InsertedRing(m, n, smallmap, b, x, s);
    forall j | 0 <= j < NBINS ensures SmallBinOk(n, map', c.small[j], j) {
      assert SmallBinOk(m, smallmap, b.small[j], j);
      MarkedMark(smallmap, i, j);
      if j != i {
        OtherBin(m, n, b, h, f, x, i, j);
        SmallBinFrame(m, n, map', smallmap, b.small[j], j);
      }
    }
  }

  lemma FreshNot(sz: map<int, int>, x: int, s: int)
    requires Fresh(sz, x, s)
    ensures x !in sz
  {
  }

  // ----- Removal

  lemma DropApart(sz: map<int, int>, x: int)
    requires Apart(sz)
    ensures Apart(sz - {x})
  {
  }

  lemma DropPlaced(b: Bins, i: nat, k: nat)
    requires |b.small| == NBINS && SmallPlaced(b) && i < NBINS && k < |b.small[i]|
    ensures SmallPlaced(DropSmall(b, i, k))
  {
    var c, x, r := DropSmall(b, i, k), b.small[i][k], Without(b.small[i], k);
    assert x in b.sz && b.sz[x] == 8 * i;
    assert forall j | 0 <= j < |r| :: r[j] == b.small[i][Kept(k, j)] && Kept(k, j) != k;
    assert Distinct(b.small[i]);
    assert Distinct(r);
    forall y | y in c.sz && c.sz[y] < 256 ensures 0 <= c.sz[y] / 8 < NBINS && y in c.small[c.sz[y] / 8] {
      if b.sz[y] / 8 == i {
        var j :| 0 <= j < |b.small[i]| && b.small[i][j] == y;
        assert r[if j < k then j else j - 1] == y;
      }
    }
  }

  lemma SmallUnkeyed(t: Trie, sz: map<int, int>, x: int)
    requires WellFormed(t, sz) && x in sz && sz[x] < 256
    ensures WellFormed(t, sz - {x})
  {
    hide Path, Shaped, Placed;
  }

  /** The writes, if any, of unlink_small_chunk on the chunk at position `k` of bin `i`. */
  ghost predicate UnlinkWrites(m: Mem, n: Mem, b: Bins, i: nat, k: nat)
    requires |b.small| == NBINS && i < NBINS && k < |b.small[i]|
  {
    var x := b.small[i][k];
    if |b.small[i]| == 1 then n == m else LinksOut(m, n, Rd(m, x + BK), Rd(m, x + FD))
  }

  /** The neighbours that unlink_small_chunk reads, and the checks it makes on them. */
  lemma NeighboursInBin(m: Mem, smallmap: bv32, b: Bins, i: nat, k: nat)
    requires Apart(b.sz) && SmallOk(m, smallmap, b) && i < NBINS && k < |b.small[i]|
    ensures var x := b.small[i][k];
      && InSmallBin(b, Rd(m, x + BK), i) && InSmallBin(b, Rd(m, x + FD), i) && InSmallBin(b, x, i)
      && x in b.sz && b.sz[x] == 8 * i
      && (Rd(m, x + BK) == Rd(m, x + FD) <==> |b.small[i]| == 1)
      && Rd(m, Rd(m, x + FD) + BK) == x && Rd(m, Rd(m, x + BK) + FD) == x
      && Rd(m, x + FD) != x && Rd(m, x + BK) != x && Rd(m, x + FD) + BK != Rd(m, x + BK) + FD
  {
    hide Marked, Apart, Spaced, Linked, SmallPlaced, InSmallBin;
    assert SmallBinOk(m, smallmap, b.small[i], i);
    var r := [SmallBinAt(i)] + b.small[i];
    BinSpaced(b, i);
    Neighbours(m, r, k + 1);
    MembersInBin(b, i, r);
  }

  lemma MembersInBin(b: Bins, i: nat, r: seq<int>)
    requires |b.small| == NBINS && SmallPlaced(b) && i < NBINS && r == [SmallBinAt(i)] + b.small[i]
    ensures forall j | 0 <= j < |r| :: InSmallBin(b, r[j], i)
    ensures forall j | 0 <= j < |b.small[i]| :: b.small[i][j] in b.sz && b.sz[b.small[i][j]] == 8 * i && b.small[i][j] == r[j + 1]
  {
    forall j | 0 <= j < |r| ensures InSmallBin(b, r[j], i) {
      if j > 0 {
        assert r[j] == b.small[i][j - 1];
      }
    }
  }

  lemma RemovedRing(m: Mem, n: Mem, smallmap: bv32, b: Bins, i: nat, k: nat)
    requires Apart(b.sz) && SmallOk(m, smallmap, b) && i < NBINS && k < |b.small[i]| && |b.small[i]| > 1
    requires UnlinkWrites(m, n, b, i, k)
    ensures Linked(n, [SmallBinAt(i)] + Without(b.small[i], k))
  {
    hide Marked, Apart, SmallPlaced, Spaced, Linked, LinksOut;
    assert SmallBinOk(m, smallmap, b.small[i], i);
    var r := [SmallBinAt(i)] + b.small[i];
    assert r[k + 1] == b.small[i][k];
    BinSpaced(b, i);
    Remove(m, n, r, k + 1);
    assert Without(r, k + 1) == [SmallBinAt(i)] + Without(b.small[i], k);
  }

  lemma OutTouches(m: Mem, n: Mem, b: Bins, i: nat, k: nat)
    requires |b.small| == NBINS && i < NBINS && k < |b.small[i]| && UnlinkWrites(m, n, b, i, k)
    ensures var x := b.small[i][k]; TouchesLinks(m, n, Rd(m, x + BK), Rd(m, x + FD), x)
  {
  }

  /** unlink_small_chunk and unlink_first_small_chunk take exactly that chunk out of the bins. */
  lemma Removed(m: Mem, n: Mem, smallmap: bv32, treemap: bv32, b: Bins, i: nat, k: nat)
    requires BinsOk(m, smallmap, treemap, b) && i < NBINS && k < |b.small[i]|
    requires UnlinkWrites(m, n, b, i, k)
    ensures BinsOk(n, if |b.small[i]| == 1 then Clear(smallmap, i) else smallmap, treemap, DropSmall(b, i, k))
  {
    hide Marked, Clear, Apart, WellFormed, SmallPlaced, UnlinkWrites, NodeOk, SlotOk, InSmallBin, Linked, SameLinks,
         Without;
    var c := DropSmall(b, i, k);
    var x := b.small[i][k];
    var map' := if |b.small[i]| == 1 then Clear(smallmap, i) else smallmap;
    var h, f := Rd(m, x + BK), Rd(m, x + FD);
    NeighboursInBin(m, smallmap, b, i, k);
    OutTouches(m, n, b, i, k);
    TreeUntouched(m, n, treemap, b, h, f, x, i);
    SmallUnkeyed(b.trie, b.sz, x);
    DropApart(b.sz, x);
    DropPlaced(b, i, k);
    forall j | 0 <= j < NBINS ensures SmallBinOk(n, map', c.small[j], j) {
      assert SmallBinOk(m, smallmap, b.small[j], j);
      MarkedClear(smallmap, i, j);
      if j != i {
        OtherBin(m, n, b, h, f, x, i, j);
        SmallBinFrame(m, n, map', smallmap, b.small[j], j);
      } else {
        WithoutLength(b.small[i], k);
        if |b.small[i]| > 1 {
          RemovedRing(m, n, smallmap, b, i, k);
        }
      }
    }
  }

  lemma WithoutLength(r: seq<int>, k: nat)
    requires k < |r|
    ensures |Without(r, k)| == |r| - 1
  {
  }

  // ----- Which words change

  lemma InsertedWithin(m: Mem, n: Mem, smallmap: bv32, b: Bins, x: int, s: int, tz: map<int, int>)
    requires SmallOk(m, smallmap, b) && SmallSize(s) && Fresh(b.sz, x, s) && Apart(b.sz)
    requires LinksIn(m, n, SmallBinAt(s / 8), FirstOf(m, b, s / 8), x, 32)
    requires tz == b.sz[x := s]
    ensures Within(m, n, tz)
  {
    hide Marked, SmallPlaced, SmallBinOk;
    FirstInBin(m, smallmap, b, s / 8);
    var f := FirstOf(m, b, s / 8);
    assert f in b.sz ==> Interior(tz, f, f + BK);
    assert x !in b.sz;
    forall w | !BinArea(w) && (forall y :: !Interior(tz, y, w)) ensures Rd(n, w) == Rd(m, w) {
      assert !Interior(tz, x, w);
      assert f in b.sz ==> !Interior(tz, f, w);
    }
  }

  lemma RemovedWithin(m: Mem, n: Mem, smallmap: bv32, b: Bins, i: nat, k: nat)
    requires Apart(b.sz) && SmallOk(m, smallmap, b) && i < NBINS && k < |b.small[i]|
    requires UnlinkWrites(m, n, b, i, k)
    ensures Within(m, n, b.sz)
  {
    hide Marked, SmallPlaced, SmallBinOk;
    NeighboursInBin(m, smallmap, b, i, k);
    var x := b.small[i][k];
    var f, e := Rd(m, x + FD), Rd(m, x + BK);
    forall w | !BinArea(w) && (forall y :: !Interior(b.sz, y, w)) ensures Rd(n, w) == Rd(m, w) {
      assert f in b.sz ==> !Interior(b.sz, f, w);
      assert e in b.sz ==> !Interior(b.sz, e, w);
    }
  }
}
