/** The shape of the 32 bitwise tries that hold large free chunks, apart from how memory links them. */
module Tries {
  import opened Bits

  /** A place in the trie of bin `i` where the low `w` bits of a size are still undecided and the
      bits above them are `q`. */
  datatype Pos = Pos(i: nat, w: nat, q: nat)

  /** `at` gives the chain of same-size chunks at each occupied place, the tree node first;
      `loc` gives the place of each chunk. */
  datatype Trie = Trie(at: map<Pos, seq<int>>, loc: map<int, Pos>)

  function Root(i: nat): Pos {
    Pos(i, Width(i), RootQ(i))
  }

  function Up(p: Pos): Pos {
    Pos(p.i, p.w + 1, p.q / 2)
  }

  function Child(p: Pos, c: nat): Pos
    requires p.w > 0 && c < 2
  {
    Pos(p.i, p.w - 1, 2 * p.q + c)
  }

  /** The place at height `w` on the way down to a chunk of size `s`. */
  function Path(s: nat, w: nat): Pos {
    Pos(TreeIndex(s), w, Sh(s, w))
  }

  ghost predicate PosOk(p: Pos) {
    && p.i < NTREEBINS
    && 4 <= p.w <= Width(p.i)
    && (p.w == Width(p.i) ==> p == Root(p.i))
  }

  ghost predicate LargeSize(s: int) {
    256 <= s < W64 && s % 16 == 0
  }

  // ----- Well-formedness

  /** Occupied places are closed under going up. */
  ghost predicate Shaped(t: Trie) {
    forall p | p in t.at ::
      && PosOk(p)
      && |t.at[p]| > 0
      && (p.w < Width(p.i) ==> Up(p) in t.at)
  }

  /** `at` and `loc` describe the same placement. */
  ghost predicate Placed(t: Trie) {
    && (forall p, j | p in t.at && 0 <= j < |t.at[p]| :: t.at[p][j] in t.loc && t.loc[t.at[p][j]] == p)
    && (forall x | x in t.loc :: t.loc[x] in t.at && x in t.at[t.loc[x]])
  }

  /** Every chunk lies on the path that its size spells. */
  ghost predicate Keyed(t: Trie, sz: map<int, int>) {
    forall x | x in t.loc ::
      x in sz && LargeSize(sz[x]) && t.loc[x] == Path(sz[x], t.loc[x].w)
  }

  /** One place per size. */
  ghost predicate Unique(t: Trie, sz: map<int, int>)
    requires Keyed(t, sz)
  {
    forall x, y | x in t.loc && y in t.loc :: sz[x] == sz[y] ==> t.loc[x] == t.loc[y]
  }

  /** Chunks chained at one place have one size. */
  ghost predicate Chained(t: Trie, sz: map<int, int>)
    requires Keyed(t, sz)
  {
    forall x, y | x in t.loc && y in t.loc :: t.loc[x] == t.loc[y] ==> sz[x] == sz[y]
  }

  /** Exactly the large chunks are in the tries. */
  ghost predicate Complete(t: Trie, sz: map<int, int>) {
    forall x | x in sz :: sz[x] >= 256 <==> x in t.loc
  }

  ghost predicate WellFormed(t: Trie, sz: map<int, int>) {
    Shaped(t) && Placed(t) && Keyed(t, sz) && Unique(t, sz) && Chained(t, sz) && Complete(t, sz)
  }

  /** The size of the chunks at an occupied place. */
  ghost function SizeAt(t: Trie, sz: map<int, int>, p: Pos): int {
    if p in t.at && |t.at[p]| > 0 && t.at[p][0] in sz then sz[t.at[p][0]] else 0
  }

  // ----- Adding a chunk

  /** A new place holding only `x`. */
  function AddLeaf(t: Trie, x: int, p: Pos): Trie {
    Trie(t.at[p := [x]], t.loc[x := p])
  }

  /** `x` chained behind the node already at `p`. */
  function AddChained(t: Trie, x: int, p: Pos): Trie
    requires p in t.at && |t.at[p]| > 0
  {
    Trie(t.at[p := [t.at[p][0], x] + t.at[p][1..]], t.loc[x := p])
  }

  ghost predicate CanHang(t: Trie, p: Pos) {
    PosOk(p) && p !in t.at && (p.w < Width(p.i) ==> Up(p) in t.at)
  }

  lemma LeafShaped(t: Trie, x: int, p: Pos)
    requires Shaped(t) && CanHang(t, p)
    ensures Shaped(AddLeaf(t, x, p))
  {
  }

  lemma LeafPlaced(t: Trie, x: int, p: Pos)
    requires Placed(t) && p !in t.at && x !in t.loc
    ensures Placed(AddLeaf(t, x, p))
  {
    assert forall y | y in t.loc :: t.loc[y] != p;
  }

  lemma AddKeyed(t: Trie, sz: map<int, int>, u: Trie, x: int, s: int, p: Pos)
    requires Keyed(t, sz) && Complete(t, sz) && x !in sz && LargeSize(s) && p == Path(s, p.w)
    requires u.loc == t.loc[x := p]
    ensures Keyed(u, sz[x := s]) && Complete(u, sz[x := s])
  {
    assert x !in t.loc;
  }

  lemma LeafKeeps(t: Trie, sz: map<int, int>, x: int, s: int, p: Pos)
    requires WellFormed(t, sz) && x !in sz && LargeSize(s)
    requires CanHang(t, p) && p == Path(s, p.w)
    requires forall y | y in t.loc :: sz[y] != s
    ensures WellFormed(AddLeaf(t, x, p), sz[x := s])
  {
    hide Shaped, CanHang, Path;
    assert x !in t.loc;
    LeafShaped(t, x, p);
    assert p !in t.at by { PosFree(t, p); }
    LeafPlaced(t, x, p);
    AddKeyed(t, sz, AddLeaf(t, x, p), x, s, p);
    assert forall y | y in t.loc :: t.loc[y] in t.at;
  }

  lemma PosFree(t: Trie, p: Pos)
    requires CanHang(t, p)
    ensures p !in t.at
  {
  }

  lemma ChainShaped(t: Trie, x: int, p: Pos)
    requires Shaped(t) && p in t.at
    ensures Shaped(AddChained(t, x, p))
  {
  }

  lemma ChainMembers(r: seq<int>, x: int, y: int)
    requires |r| > 0
    ensures y in [r[0], x] + r[1..] <==> y == x || y in r
  {
    var s := [r[0], x] + r[1..];
    if y in r {
      var j :| 0 <= j < |r| && r[j] == y;
      assert s[if j == 0 then 0 else j + 1] == y;
    }
  }

  lemma ChainPlaced(t: Trie, x: int, p: Pos)
    requires Placed(t) && p in t.at && |t.at[p]| > 0 && x !in t.loc
    ensures Placed(AddChained(t, x, p))
  {
    var u := AddChained(t, x, p);
    forall q, j | q in u.at && 0 <= j < |u.at[q]|
      ensures u.at[q][j] in u.loc && u.loc[u.at[q][j]] == q
    {
      if q == p {
        ChainMembers(t.at[p], x, u.at[q][j]);
      }
    }
    forall y | y in u.loc
      ensures u.loc[y] in u.at && y in u.at[u.loc[y]]
    {
      ChainMembers(t.at[p], x, y);
    }
  }

  lemma ChainKeeps(t: Trie, sz: map<int, int>, x: int, s: int, p: Pos)
    requires WellFormed(t, sz) && x !in sz && LargeSize(s)
    requires p in t.at && p == Path(s, p.w) && SizeAt(t, sz, p) == s
    ensures WellFormed(AddChained(t, x, p), sz[x := s])
  {
    hide Path;
    var h := t.at[p][0];
    assert h in t.loc && t.loc[h] == p;
    assert x !in t.loc;
    ChainShaped(t, x, p);
    ChainPlaced(t, x, p);
    AddKeyed(t, sz, AddChained(t, x, p), x, s, p);
  }

  // ----- Searching

  lemma {:induction false} Ancestors(t: Trie, s: nat, lo: nat, w: nat)
    requires Shaped(t) && Path(s, lo) in t.at && lo <= w <= Width(TreeIndex(s))
    ensures Path(s, w) in t.at
    decreases w - lo
  {
    if lo < w {
      assert Up(Path(s, lo)) == Path(s, lo + 1);
      Ancestors(t, s, lo + 1, w);
    }
  }

  /** Chunks of size `s` can only be at height `w` or below. */
  ghost predicate NoneAbove(t: Trie, sz: map<int, int>, s: int, w: nat) {
    forall y | y in t.loc :: y in sz && (sz[y] == s ==> t.loc[y].w <= w)
  }

  /** A node of another size on the path pushes the search one level down. */
  lemma PassNode(t: Trie, sz: map<int, int>, s: int, w: nat)
    requires WellFormed(t, sz) && LargeSize(s) && w > 0 && NoneAbove(t, sz, s, w)
    requires Path(s, w) in t.at && SizeAt(t, sz, Path(s, w)) != s
    ensures NoneAbove(t, sz, s, w - 1)
  {
    var h := t.at[Path(s, w)][0];
    assert h in t.loc && t.loc[h] == Path(s, w);
  }

  /** Falling off the trie means that no chunk has size `s`. */
  lemma FellOff(t: Trie, sz: map<int, int>, s: int, w: nat)
    requires WellFormed(t, sz) && LargeSize(s) && w <= Width(TreeIndex(s)) && NoneAbove(t, sz, s, w)
    requires Path(s, w) !in t.at
    ensures forall y | y in t.loc :: sz[y] != s
  {
    forall y | y in t.loc && sz[y] == s ensures false {
      Ancestors(t, s, t.loc[y].w, w);
    }
  }

  lemma NoneAboveRoot(t: Trie, sz: map<int, int>, s: int)
    requires WellFormed(t, sz) && LargeSize(s)
    ensures NoneAbove(t, sz, s, Width(TreeIndex(s)))
  {
  }

  lemma BottomIsExact(a: int, b: int)
    requires LargeSize(a) && LargeSize(b) && Sh(a, 4) == Sh(b, 4)
    ensures a == b
  {
    hide Sh;
    ShRange(a, 4);
    ShRange(b, 4);
    assert Pow2(4) == 16;
    SameMultiple(a, b, Sh(a, 4));
  }

  lemma SameMultiple(a: int, b: int, q: int)
    requires a % 16 == 0 && b % 16 == 0 && q * 16 <= a < (q + 1) * 16 && q * 16 <= b < (q + 1) * 16
    ensures a == b
  {
  }

  /** At the lowest height a place holds a single size. */
  lemma BottomNode(t: Trie, sz: map<int, int>, s: int)
    requires WellFormed(t, sz) && LargeSize(s) && Path(s, 4) in t.at
    ensures SizeAt(t, sz, Path(s, 4)) == s
  {
    var h := t.at[Path(s, 4)][0];
    assert h in t.loc && t.loc[h] == Path(s, 4);
    BottomIsExact(s, sz[h]);
  }

  // ----- Removing a chunk

  /** `x` leaves the chain at its place, which keeps the members `r`. */
  function DropMember(t: Trie, x: int, r: seq<int>): Trie
    requires x in t.loc
  {
    Trie(t.at[t.loc[x] := r], t.loc - {x})
  }

  /** The place of `x`, its only member, disappears. */
  function DropLeaf(t: Trie, x: int): Trie
    requires x in t.loc
  {
    Trie(t.at - {t.loc[x]}, t.loc - {x})
  }

  /** The chain at the leaf `l` moves up to the place of `x`, its only member. */
  function Replace(t: Trie, x: int, l: Pos): Trie
    requires x in t.loc && l in t.at
  {
    var p := t.loc[x];
    Trie((t.at - {l})[p := t.at[l]],
         map y | y in t.loc && y != x :: if t.loc[y] == l then p else t.loc[y])
  }

  /** `p` has no occupied place below it. */
  ghost predicate Childless(t: Trie, p: Pos) {
    p.w > 0 && Child(p, 0) !in t.at && Child(p, 1) !in t.at
  }

  /** `l` is strictly below `p`. */
  ghost predicate Below(l: Pos, p: Pos) {
    l.i == p.i && l.w < p.w && Sh(l.q, p.w - l.w) == p.q
  }

  lemma ChildBelow(p: Pos, c: nat)
    requires p.w > 0 && c < 2
    ensures Below(Child(p, c), p) && Up(Child(p, c)) == p
  {
  }

  lemma BelowStep(l: Pos, p: Pos, c: nat)
    requires Below(l, p) && l.w > 0 && c < 2
    ensures Below(Child(l, c), p)
  {
    ShHalf(2 * l.q + c, p.w - l.w);
    assert (2 * l.q + c) / 2 == l.q;
  }

  /** Chunks on the path through `l` are on the path through any place above it. */
  lemma BelowPath(l: Pos, p: Pos, s: nat)
    requires Below(l, p) && l == Path(s, l.w)
    ensures p == Path(s, p.w)
  {
    ShCompose(s, l.w, p.w - l.w);
  }

  lemma UpChild(r: Pos)
    ensures Child(Up(r), r.q % 2) == r
  {
  }

  lemma ChildlessParent(t: Trie, p: Pos, r: Pos)
    requires Childless(t, p) && r in t.at
    ensures Up(r) != p
  {
    UpChild(r);
  }

  lemma FewerKeyed(t: Trie, sz: map<int, int>, u: Trie, x: int)
    requires Keyed(t, sz) && Unique(t, sz) && Chained(t, sz) && Complete(t, sz)
    requires x in t.loc && u.loc == t.loc - {x}
    ensures Keyed(u, sz - {x}) && Unique(u, sz - {x}) && Chained(u, sz - {x}) && Complete(u, sz - {x})
  {
  }

  /** What is left of a chain once `x` is out of it. */
  ghost predicate LeavesBehind(r: seq<int>, x: int, r': seq<int>) {
    |r'| > 0 && forall y :: y in r' <==> y in r && y != x
  }

  lemma MemberPlaced(t: Trie, x: int, r: seq<int>)
    requires Placed(t) && x in t.loc
    requires LeavesBehind(t.at[t.loc[x]], x, r)
    ensures Placed(DropMember(t, x, r))
  {
    var p, u := t.loc[x], DropMember(t, x, r);
    forall q, j | q in u.at && 0 <= j < |u.at[q]|
      ensures u.at[q][j] in u.loc && u.loc[u.at[q][j]] == q
    {
      var y := u.at[q][j];
      assert y in u.at[q];
      assert y in t.at[q];
      assert y in t.loc && t.loc[y] == q by {
        var k :| 0 <= k < |t.at[q]| && t.at[q][k] == y;
      }
    }
  }

  lemma MemberKeeps(t: Trie, sz: map<int, int>, x: int, r: seq<int>)
    requires WellFormed(t, sz) && x in t.loc
    requires LeavesBehind(t.at[t.loc[x]], x, r)
    ensures WellFormed(DropMember(t, x, r), sz - {x})
  {
    hide Path, LeavesBehind;
    var u := DropMember(t, x, r);
    assert Shaped(u) by { MemberShaped(t, x, r); }
    MemberPlaced(t, x, r);
    FewerKeyed(t, sz, u, x);
  }

  lemma MemberShaped(t: Trie, x: int, r: seq<int>)
    requires Shaped(t) && x in t.loc && t.loc[x] in t.at && LeavesBehind(t.at[t.loc[x]], x, r)
    ensures Shaped(DropMember(t, x, r))
  {
  }

  lemma LeafGone(t: Trie, x: int)
    requires Shaped(t) && Placed(t) && x in t.loc
    requires t.at[t.loc[x]] == [x] && Childless(t, t.loc[x])
    ensures Shaped(DropLeaf(t, x)) && Placed(DropLeaf(t, x))
  {
    var p, u := t.loc[x], DropLeaf(t, x);
    forall q | q in u.at ensures Up(q) != p {
      ChildlessParent(t, p, q);
    }
    assert forall q, j | q in t.at && 0 <= j < |t.at[q]| :: t.at[q][j] == x ==> q == p;
    forall y | y in u.loc ensures u.loc[y] in u.at && y in u.at[u.loc[y]] {
      assert y in t.at[t.loc[y]];
    }
  }

  lemma DropLeafKeeps(t: Trie, sz: map<int, int>, x: int)
    requires WellFormed(t, sz) && x in t.loc
    requires t.at[t.loc[x]] == [x] && Childless(t, t.loc[x])
    ensures WellFormed(DropLeaf(t, x), sz - {x})
  {
    hide Path, Childless;
    LeafGone(t, x);
    FewerKeyed(t, sz, DropLeaf(t, x), x);
  }

  /** The chain at `l` can take the place of `x`. */
  ghost predicate CanReplace(t: Trie, x: int, l: Pos)
    requires x in t.loc
  {
    var p := t.loc[x];
    l in t.at && p in t.at && t.at[p] == [x] && Childless(t, l) && Below(l, p)
  }

  lemma ReplaceShaped(t: Trie, x: int, l: Pos)
    requires Shaped(t) && x in t.loc && CanReplace(t, x, l)
    ensures Shaped(Replace(t, x, l))
  {
    var u := Replace(t, x, l);
    forall q | q in u.at ensures Up(q) != l {
      ChildlessParent(t, l, q);
    }
  }

  lemma ReplacePlaced(t: Trie, x: int, l: Pos)
    requires Placed(t) && x in t.loc && CanReplace(t, x, l)
    ensures Placed(Replace(t, x, l))
  {
    var p, u := t.loc[x], Replace(t, x, l);
    assert t.at[p][0] == x;
    forall q, j | q in u.at && 0 <= j < |u.at[q]|
      ensures u.at[q][j] in u.loc && u.loc[u.at[q][j]] == q
    {
      var q' := if q == p then l else q;
      assert u.at[q][j] == t.at[q'][j];
    }
    forall y | y in u.loc ensures u.loc[y] in u.at && y in u.at[u.loc[y]] {
      assert y in t.at[t.loc[y]];
    }
  }

  lemma ReplaceKeyed(t: Trie, sz: map<int, int>, x: int, l: Pos)
    requires Keyed(t, sz) && Complete(t, sz) && x in t.loc && CanReplace(t, x, l)
    ensures Keyed(Replace(t, x, l), sz - {x}) && Complete(Replace(t, x, l), sz - {x})
  {
    hide Sh;
    var p, u := t.loc[x], Replace(t, x, l);
    forall y | y in u.loc ensures u.loc[y] == Path(sz[y], u.loc[y].w) {
      if t.loc[y] == l {
        BelowPath(l, p, sz[y]);
      }
    }
  }

  lemma ReplaceUnique(t: Trie, sz: map<int, int>, x: int, l: Pos)
    requires Placed(t) && Keyed(t, sz) && Unique(t, sz) && Chained(t, sz) && x in t.loc && CanReplace(t, x, l)
    requires Keyed(Replace(t, x, l), sz - {x})
    ensures Unique(Replace(t, x, l), sz - {x}) && Chained(Replace(t, x, l), sz - {x})
  {
    var p, u := t.loc[x], Replace(t, x, l);
    forall y | y in t.loc && t.loc[y] == p ensures y == x {
      assert y in t.at[p];
    }
  }

  lemma ReplaceKeeps(t: Trie, sz: map<int, int>, x: int, l: Pos)
    requires WellFormed(t, sz) && x in t.loc && CanReplace(t, x, l)
    ensures WellFormed(Replace(t, x, l), sz - {x})
  {
    hide Path, CanReplace, Replace;
    ReplaceShaped(t, x, l);
    ReplacePlaced(t, x, l);
    ReplaceKeyed(t, sz, x, l);
    ReplaceUnique(t, sz, x, l);
  }

  // ----- Best fit

  /** Chunk `y` is at or below place `p`. */
  ghost predicate Under(t: Trie, sz: map<int, int>, y: int, p: Pos) {
    y in t.loc && y in sz && sz[y] >= 0 && t.loc[y].w <= p.w && Path(sz[y], p.w) == p
  }

  lemma PathDown(s: nat, w: nat)
    requires w > 0
    ensures Path(s, w - 1) == Child(Path(s, w), Sh(s, w - 1) % 2)
  {
  }

  /** Below `p` a chunk is either at `p` or under one of the occupied children. */
  lemma UnderSplit(t: Trie, sz: map<int, int>, y: int, p: Pos)
    requires Shaped(t) && Keyed(t, sz) && Placed(t) && Under(t, sz, y, p) && p in t.at && t.loc[y] != p
    ensures p.w > 0
    ensures var c := Sh(sz[y], p.w - 1) % 2; Child(p, c) in t.at && Under(t, sz, y, Child(p, c))
  {
    hide Sh, Width, RootQ, TreeIndex;
    var s := sz[y];
    assert t.loc[y] == Path(s, t.loc[y].w) && t.loc[y] in t.at;
    assert PosOk(p) && p == Path(s, p.w);
    assert t.loc[y].w < p.w;
    Ancestors(t, s, t.loc[y].w, p.w - 1);
    PathDown(s, p.w);
  }

  lemma AtPlace(t: Trie, sz: map<int, int>, y: int, p: Pos)
    requires WellFormed(t, sz) && y in t.loc && t.loc[y] == p
    ensures y in sz && p in t.at && sz[y] == SizeAt(t, sz, p)
  {
    hide Path, PosOk;
    assert p in t.at;
    var h := t.at[p][0];
    assert h in t.loc && t.loc[h] == p;
    assert h in sz;
  }

  lemma HeadUnder(t: Trie, sz: map<int, int>, p: Pos)
    requires WellFormed(t, sz) && p in t.at
    ensures |t.at[p]| > 0 && Under(t, sz, t.at[p][0], p) && t.loc[t.at[p][0]] == p
    ensures SizeAt(t, sz, p) == sz[t.at[p][0]] && LargeSize(sz[t.at[p][0]])
  {
    assert t.at[p][0] in t.loc && t.loc[t.at[p][0]] == p;
  }

  /** A smaller prefix means a smaller size. */
  lemma PrefixOrder(a: nat, b: nat, w: nat)
    requires Sh(a, w) < Sh(b, w)
    ensures a < b
  {
    if b <= a {
      ShMono(b, a, w);
    }
  }

  /** Everything that may still beat a remainder of `r` is under `p`, or larger than the node at `p`. */
  ghost predicate Pending(t: Trie, sz: map<int, int>, nb: int, r: int, p: Pos) {
    forall y | y in t.loc && y in sz :: nb <= sz[y] < nb + r ==> Under(t, sz, y, p) || SizeAt(t, sz, p) < sz[y]
  }

  /** No chunk of the tries fits `nb` more tightly than with remainder `r`. */
  ghost predicate NoneTighter(t: Trie, sz: map<int, int>, nb: int, r: int) {
    forall y | y in t.loc && y in sz :: sz[y] >= nb ==> sz[y] - nb >= r
  }

  /** leftmost_child */
  function Leftmost(t: Trie, p: Pos): Pos
    requires p.w > 0
  {
    if Child(p, 0) in t.at then Child(p, 0) else Child(p, 1)
  }

  /** One step of the walk down the leftmost path, once the node at `p` has been weighed. */
  lemma LeftmostStep(t: Trie, sz: map<int, int>, nb: int, r: int, p: Pos)
    requires WellFormed(t, sz) && p in t.at && p.w > 0 && Pending(t, sz, nb, r, p)
    requires nb <= SizeAt(t, sz, p) ==> r <= SizeAt(t, sz, p) - nb
    requires r > 0 ==> nb <= SizeAt(t, sz, p)
    ensures if Leftmost(t, p) in t.at then Pending(t, sz, nb, r, Leftmost(t, p))
            else NoneTighter(t, sz, nb, r)
  {
    hide WellFormed, Under, Child, Path, SizeAt;
    forall y | y in t.loc && y in sz && nb <= sz[y] < nb + r
      ensures Leftmost(t, p) in t.at
      ensures Under(t, sz, y, Leftmost(t, p)) || SizeAt(t, sz, Leftmost(t, p)) < sz[y]
    {
      assert Under(t, sz, y, p);
      LeftmostBeats(t, sz, y, p);
    }
  }

  lemma LeftmostBeats(t: Trie, sz: map<int, int>, y: int, p: Pos)
    requires WellFormed(t, sz) && p in t.at && p.w > 0 && Under(t, sz, y, p) && sz[y] != SizeAt(t, sz, p)
    ensures Leftmost(t, p) in t.at
    ensures Under(t, sz, y, Leftmost(t, p)) || SizeAt(t, sz, Leftmost(t, p)) < sz[y]
  {
    hide Sh, Shaped, Placed, Keyed, Unique, Chained, Complete, SizeAt;
    if t.loc[y] == p {
      AtPlace(t, sz, y, p);
    }
    UnderSplit(t, sz, y, p);
    var c := Sh(sz[y], p.w - 1) % 2;
    if c == 1 && Child(p, 0) in t.at {
      LeftIsLess(t, sz, y, p);
    }
  }

  lemma LeftIsLess(t: Trie, sz: map<int, int>, y: int, p: Pos)
    requires WellFormed(t, sz) && p.w > 0 && Child(p, 0) in t.at && Under(t, sz, y, Child(p, 1))
    ensures SizeAt(t, sz, Child(p, 0)) < sz[y]
  {
    hide Sh, Shaped, Placed, Keyed, Unique, Chained, Complete, SizeAt;
    HeadUnder(t, sz, Child(p, 0));
    PrefixOrder(SizeAt(t, sz, Child(p, 0)), sz[y], p.w - 1);
  }

  // ----- The walk of tmalloc_large towards a node of exactly the wanted size

  /** `o` is an occupied right subtree left aside on the way down to height `w`. */
  ghost predicate Aside(t: Trie, nb: int, w: nat, o: Pos) {
    nb >= 0 && o in t.at && o.i == TreeIndex(nb) && w <= o.w && Sh(nb, o.w) < o.q
  }

  /** Chunk `y` is in the subtree set aside, or larger than all of it. */
  ghost predicate Beyond(t: Trie, sz: map<int, int>, y: int, o: Pos) {
    y in t.loc && y in sz && sz[y] >= 0 && o.q <= Sh(sz[y], o.w) && (Sh(sz[y], o.w) == o.q ==> t.loc[y].w <= o.w)
  }

  /** Chunks of the bin of `nb` that may still beat a remainder of `r`, having come down to height `w`:
      they are under the current place, or in or beyond the subtree `o` last set aside, if any. */
  ghost predicate Walk(t: Trie, sz: map<int, int>, nb: int, r: int, w: nat, o: Pos, some: bool) {
    && LargeSize(nb)
    && (some ==> Aside(t, nb, w, o))
    && forall y | y in t.loc && y in sz && nb <= sz[y] < nb + r && TreeIndex(sz[y]) == TreeIndex(nb) ::
         Under(t, sz, y, Path(nb, w)) || (some && Beyond(t, sz, y, o))
  }

  lemma WalkStart(t: Trie, sz: map<int, int>, nb: int, r: int, o: Pos)
    requires WellFormed(t, sz) && LargeSize(nb)
    ensures Walk(t, sz, nb, r, Width(TreeIndex(nb)), o, false)
  {
    hide Sh, Width, RootQ, TreeIndex;
    forall y | y in t.loc && y in sz && nb <= sz[y] && TreeIndex(sz[y]) == TreeIndex(nb)
      ensures Under(t, sz, y, Path(nb, Width(TreeIndex(nb))))
    {
      RootPrefix(nb);
      RootPrefix(sz[y]);
      assert t.loc[y] in t.at;
    }
  }

  /** Still beyond the new subtree: everything beyond one set aside earlier. */
  lemma BeyondStays(t: Trie, sz: map<int, int>, nb: int, w: nat, y: int, o: Pos)
    requires w > 0 && Aside(t, nb, w, o) && Beyond(t, sz, y, o)
    ensures Child(Path(nb, w), 1).q < Sh(sz[y], w - 1)
  {
    hide TreeIndex;
    var s := sz[y];
    if Sh(s, w) <= Sh(nb, w) {
      ShMono(Sh(s, w), Sh(nb, w), o.w - w);
      ShCompose(s, w, o.w - w);
      ShCompose(nb, w, o.w - w);
    }
    assert Sh(s, w) == Sh(s, w - 1) / 2;
  }

  lemma WalkOne(t: Trie, sz: map<int, int>, nb: int, w: nat, y: int)
    requires WellFormed(t, sz) && LargeSize(nb) && w > 0 && Path(nb, w) in t.at
    requires Under(t, sz, y, Path(nb, w)) && sz[y] >= nb && sz[y] != SizeAt(t, sz, Path(nb, w))
    ensures Under(t, sz, y, Path(nb, w - 1))
         || (Sh(nb, w - 1) % 2 == 0 && Child(Path(nb, w), 1) in t.at && Under(t, sz, y, Child(Path(nb, w), 1)))
  {
    hide Sh, Shaped, Placed, Keyed, Unique, Chained, Complete, SizeAt, TreeIndex;
    var p := Path(nb, w);
    if t.loc[y] == p {
      AtPlace(t, sz, y, p);
    }
    UnderSplit(t, sz, y, p);
    PathDown(nb, w);
    PathDown(sz[y], w);
    ShMono(nb, sz[y], w - 1);
  }

  /** Going down past the node at height `w`, setting its right subtree aside if the path goes left. */
  lemma WalkStep(t: Trie, sz: map<int, int>, nb: int, r: int, w: nat, o: Pos, some: bool, o': Pos, some': bool)
    requires WellFormed(t, sz) && Walk(t, sz, nb, r, w, o, some) && w > 0 && Path(nb, w) in t.at
    requires nb <= SizeAt(t, sz, Path(nb, w)) ==> r <= SizeAt(t, sz, Path(nb, w)) - nb
    requires var right := Child(Path(nb, w), 1);
      if Sh(nb, w - 1) % 2 == 0 && right in t.at then o' == right && some' else o' == o && some' == some
    ensures Walk(t, sz, nb, r, w - 1, o', some')
  {
    hide Sh, WellFormed, SizeAt, TreeIndex, Under, Beyond;
    PathDown(nb, w);
    assert some' ==> Aside(t, nb, w - 1, o');
    forall y | y in t.loc && y in sz && nb <= sz[y] < nb + r && TreeIndex(sz[y]) == TreeIndex(nb)
      ensures Under(t, sz, y, Path(nb, w - 1)) || (some' && Beyond(t, sz, y, o'))
    {
      if Under(t, sz, y, Path(nb, w)) {
        WalkOne(t, sz, nb, w, y);
        if o' == Child(Path(nb, w), 1) && Under(t, sz, y, o') {
          UnderBeyond(t, sz, y, o');
        }
      } else if o' != o {
        BeyondStays(t, sz, nb, w, y, o);
        BeyondHolds(t, sz, y, o, o');
      }
    }
  }

  lemma UnderBeyond(t: Trie, sz: map<int, int>, y: int, o: Pos)
    requires Under(t, sz, y, o)
    ensures Beyond(t, sz, y, o)
  {
  }

  lemma BeyondHolds(t: Trie, sz: map<int, int>, y: int, o: Pos, o': Pos)
    requires Beyond(t, sz, y, o) && o'.q < Sh(sz[y], o'.w)
    ensures Beyond(t, sz, y, o')
  {
  }

  /** Beyond a subtree means under it, or larger than its first node. */
  lemma BeyondPending(t: Trie, sz: map<int, int>, nb: int, y: int, o: Pos)
    requires WellFormed(t, sz) && o in t.at && Beyond(t, sz, y, o) && TreeIndex(sz[y]) == o.i
    ensures Under(t, sz, y, o) || SizeAt(t, sz, o) < sz[y]
  {
    hide Sh, WellFormed, SizeAt, TreeIndex;
    if Sh(sz[y], o.w) != o.q {
      HeadUnder(t, sz, o);
      PrefixOrder(SizeAt(t, sz, o), sz[y], o.w);
    }
  }

  /** The walk ends where the path leaves the trie. */
  lemma WalkEnd(t: Trie, sz: map<int, int>, nb: int, r: int, w: nat, o: Pos, some: bool)
    requires WellFormed(t, sz) && Walk(t, sz, nb, r, w, o, some) && w <= Width(TreeIndex(nb))
    requires Path(nb, w) !in t.at
    ensures some ==> Pending(t, sz, nb, r, o)
    ensures !some ==> forall y | y in t.loc && y in sz && nb <= sz[y] < nb + r :: TreeIndex(nb) < TreeIndex(sz[y])
  {
    hide Sh, WellFormed, SizeAt, TreeIndex, Under, Beyond, Width;
    forall y | y in t.loc && y in sz && nb <= sz[y] < nb + r
      ensures some ==> Under(t, sz, y, o) || SizeAt(t, sz, o) < sz[y]
      ensures !some ==> TreeIndex(nb) < TreeIndex(sz[y])
    {
      TreeIndexMono(nb, sz[y]);
      if TreeIndex(sz[y]) == TreeIndex(nb) {
        NotUnder(t, sz, nb, w, y);
        BeyondPending(t, sz, nb, y, o);
      } else if some {
        HeadBin(t, sz, o);
        BinsOrdered(SizeAt(t, sz, o), sz[y]);
      }
    }
  }

  lemma NotUnder(t: Trie, sz: map<int, int>, nb: int, w: nat, y: int)
    requires WellFormed(t, sz) && LargeSize(nb) && w <= Width(TreeIndex(nb)) && Path(nb, w) !in t.at
    requires y in sz
    ensures !Under(t, sz, y, Path(nb, w))
  {
    hide Sh, TreeIndex, Width, Unique, Chained, Complete;
    if Under(t, sz, y, Path(nb, w)) {
      assert t.loc[y] == Path(sz[y], t.loc[y].w);
      Ancestors(t, sz[y], t.loc[y].w, w);
    }
  }

  lemma HeadBin(t: Trie, sz: map<int, int>, p: Pos)
    requires WellFormed(t, sz) && p in t.at
    ensures 256 <= SizeAt(t, sz, p) < W64 && TreeIndex(SizeAt(t, sz, p)) == p.i
  {
    hide WellFormed, SizeAt, TreeIndex, Sh;
    HeadUnder(t, sz, p);
  }

  /** Starting afresh from the root of the first occupied bin `i` above those that hold nothing useful. */
  lemma NextBinPending(t: Trie, sz: map<int, int>, nb: int, r: int, i: nat)
    requires WellFormed(t, sz) && i < NTREEBINS && Root(i) in t.at && nb >= 0
    requires forall y | y in t.loc && y in sz && nb <= sz[y] < nb + r :: i <= TreeIndex(sz[y])
    ensures Pending(t, sz, nb, r, Root(i))
  {
    hide WellFormed, SizeAt, TreeIndex, Sh, Width, RootQ, Under;
    forall y | y in t.loc && y in sz && nb <= sz[y] < nb + r
      ensures Under(t, sz, y, Root(i)) || SizeAt(t, sz, Root(i)) < sz[y]
    {
      if TreeIndex(sz[y]) == i {
        UnderRoot(t, sz, y);
      } else {
        HeadBin(t, sz, Root(i));
        BinsOrdered(SizeAt(t, sz, Root(i)), sz[y]);
      }
    }
  }

  lemma UnderRoot(t: Trie, sz: map<int, int>, y: int)
    requires WellFormed(t, sz) && y in t.loc
    ensures y in sz && LargeSize(sz[y]) && Under(t, sz, y, Root(TreeIndex(sz[y]))) && Root(TreeIndex(sz[y])) in t.at
  {
    hide TreeIndex, Sh, Width, RootQ, Unique, Chained, Complete;
    RootPrefix(sz[y]);
    assert t.loc[y] in t.at && t.loc[y] == Path(sz[y], t.loc[y].w);
    Ancestors(t, sz[y], t.loc[y].w, Width(TreeIndex(sz[y])));
  }
}
