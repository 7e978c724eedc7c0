/** Circular doubly-linked lists threaded through the fd and bk words of chunks. */
module Ring {
  import opened Memory

  /** Index of the successor in a circular list of length `n`. */
  function Nx(n: nat, j: nat): (k: nat)
    requires j < n
    ensures k < n
  {
    if j + 1 == n then 0 else j + 1
  }

  /** Elements far enough apart that the link words of two of them never coincide. */
  ghost predicate Spaced(r: seq<int>) {
    forall i, j | 0 <= i < j < |r| :: r[i] + 16 <= r[j] || r[j] + 16 <= r[i]
  }

  /** fd of element `j` is its successor, whose bk is element `j`. */
  ghost predicate Link(m: Mem, r: seq<int>, j: nat)
    requires j < |r|
  {
    && Rd(m, r[j] + FD) == r[Nx(|r|, j)]
    && Rd(m, r[Nx(|r|, j)] + BK) == r[j]
  }

  ghost predicate Linked(m: Mem, r: seq<int>) {
    forall j | 0 <= j < |r| :: Link(m, r, j)
  }

  ghost predicate SameLinks(m: Mem, n: Mem, r: seq<int>) {
    forall j | 0 <= j < |r| :: Rd(n, r[j] + FD) == Rd(m, r[j] + FD) && Rd(n, r[j] + BK) == Rd(m, r[j] + BK)
  }

  lemma Frame(m: Mem, n: Mem, r: seq<int>)
    requires Linked(m, r) && SameLinks(m, n, r)
    ensures Linked(n, r)
  {
    forall j | 0 <= j < |r| ensures Link(n, r, j) {
      assert Link(m, r, j);
    }
  }

  /** The list with `x` put in after its first element, and the list without element `k`. */
  function With(r: seq<int>, x: int): seq<int>
    requires |r| > 0
  {
    [r[0], x] + r[1..]
  }

  function Without(r: seq<int>, k: nat): seq<int>
    requires k < |r|
  {
    r[..k] + r[k + 1..]
  }

  function Rotated(r: seq<int>): seq<int>
    requires |r| > 0
  {
    [r[|r| - 1]] + r[..|r| - 1]
  }

  /** The words from fd of `x` up to `x + w` are clear of the links of every element of `r`. */
  ghost predicate ClearOf(r: seq<int>, x: int, w: int) {
    w >= 32 && forall i | 0 <= i < |r| :: x + w - 16 <= r[i] || r[i] + 16 <= x
  }

  /** The writes that link `x` in after the first element; its other words up to `x + w` may change too. */
  ghost predicate LinksIn(m: Mem, n: Mem, h: int, f: int, x: int, w: int) {
    && (forall a {:trigger Rd(n, a)} :: a != h + FD && a != f + BK && !(x + FD <= a < x + w) ==> Rd(n, a) == Rd(m, a))
    && Rd(n, h + FD) == x && Rd(n, f + BK) == x && Rd(n, x + FD) == f && Rd(n, x + BK) == h
  }

  /** The two writes that unlink the element between `b` and `f`. */
  ghost predicate LinksOut(m: Mem, n: Mem, b: int, f: int) {
    && (forall a {:trigger Rd(n, a)} :: a != f + BK && a != b + FD ==> Rd(n, a) == Rd(m, a))
    && Rd(n, f + BK) == b && Rd(n, b + FD) == f
  }

  lemma InsertSpaced(r: seq<int>, x: int, w: int)
    requires |r| > 0 && Spaced(r) && ClearOf(r, x, w)
    ensures Spaced(With(r, x))
  {
    var s := With(r, x);
    forall i, j | 0 <= i < j < |s|
      ensures s[i] + 16 <= s[j] || s[j] + 16 <= s[i]
    {
      if i >= 2 {
        assert s[i] == r[i - 1] && s[j] == r[j - 1];
      } else if j >= 2 {
        assert s[j] == r[j - 1];
      }
    }
  }

  lemma InsertLink(m: Mem, n: Mem, r: seq<int>, x: int, w: int, j: nat)
    requires |r| > 0 && Linked(m, r) && Spaced(r) && ClearOf(r, x, w)
    requires LinksIn(m, n, r[0], Rd(m, r[0] + FD), x, w)
    requires 0 < j < |r|
    ensures Link(n, With(r, x), j + 1)
  {
    var s, k := With(r, x), Nx(|r|, j);
    assert Link(m, r, 0) && Link(m, r, j);
    assert s[j + 1] == r[j] && s[Nx(|s|, j + 1)] == r[k];
    assert r[j] != r[0] && k != Nx(|r|, 0);
    assert r[k] != r[Nx(|r|, 0)];
  }

  /** Linking `x` in just after the first element. */
  lemma Insert(m: Mem, n: Mem, r: seq<int>, x: int, w: int)
    requires |r| > 0 && Linked(m, r) && Spaced(r) && ClearOf(r, x, w)
    requires LinksIn(m, n, r[0], Rd(m, r[0] + FD), x, w)
    ensures Linked(n, With(r, x)) && Spaced(With(r, x))
  {
    InsertSpaced(r, x, w);
    var s := With(r, x);
    assert Link(m, r, 0);
    forall j | 0 <= j < |s| ensures Link(n, s, j) {
      if j >= 2 {
        InsertLink(m, n, r, x, w, j - 1);
      } else if j == 1 {
        assert s[Nx(|s|, 1)] == r[Nx(|r|, 0)];
      }
    }
  }

  /** Index in `r` of element `j` of Without(r, k). */
  function Kept(k: nat, j: nat): nat {
    if j < k then j else j + 1
  }

  lemma WithoutNext(r: seq<int>, k: nat, j: nat)
    requires k < |r| && |r| > 1 && j < |r| - 1
    ensures var s, x := Without(r, k), Nx(|r|, Kept(k, j));
      && s[j] == r[Kept(k, j)]
      && s[Nx(|s|, j)] == r[if x == k then Nx(|r|, k) else x]
  {
  }

  lemma RemoveLink(m: Mem, n: Mem, r: seq<int>, k: nat, p: nat, j: nat)
    requires k < |r| && |r| > 1 && Linked(m, r) && Spaced(r)
    requires p < |r| && Nx(|r|, p) == k
    requires LinksOut(m, n, r[p], r[Nx(|r|, k)])
    requires j < |r| - 1
    ensures Link(n, Without(r, k), j)
  {
    hide Without;
    WithoutNext(r, k, j);
    var i := Kept(k, j);
    var x := Nx(|r|, i);
    assert Link(m, r, i);
    if x != k {
      assert r[i] != r[p] && r[x] != r[Nx(|r|, k)];
    }
  }

  /** Unlinking element `k` of a list of two or more. */
  lemma Remove(m: Mem, n: Mem, r: seq<int>, k: nat)
    requires k < |r| && |r| > 1 && Linked(m, r) && Spaced(r)
    requires LinksOut(m, n, Rd(m, r[k] + BK), Rd(m, r[k] + FD))
    ensures Linked(n, Without(r, k)) && Spaced(Without(r, k))
  {
    var p := if k == 0 then |r| - 1 else k - 1;
    assert Link(m, r, p) && Link(m, r, k);
    forall j | 0 <= j < |r| - 1 ensures Link(n, Without(r, k), j) {
      RemoveLink(m, n, r, k, p, j);
    }
  }

  /** The same circle seen from its last element. */
  lemma Rotate(m: Mem, r: seq<int>)
    requires |r| > 0 && Linked(m, r) && Spaced(r)
    ensures Linked(m, Rotated(r)) && Spaced(Rotated(r))
  {
    var s, l := Rotated(r), |r| - 1;
    forall j | 0 <= j < |s| ensures Link(m, s, j) {
      var i := if j == 0 then l else j - 1;
      assert Link(m, r, i);
      assert s[j] == r[i] && s[Nx(|s|, j)] == r[Nx(|r|, i)];
    }
  }

  function Pv(n: nat, j: nat): (k: nat)
    requires j < n
    ensures k < n && Nx(n, k) == j
  {
    if j == 0 then n - 1 else j - 1
  }

  /** What the two link words of element `j` lead to. */
  lemma Neighbours(m: Mem, r: seq<int>, j: nat)
    requires j < |r| && |r| > 1 && Linked(m, r) && Spaced(r)
    ensures var f, b := Rd(m, r[j] + FD), Rd(m, r[j] + BK);
      && f == r[Nx(|r|, j)] && b == r[Pv(|r|, j)]
      && Rd(m, f + BK) == r[j] && Rd(m, b + FD) == r[j]
      && f != r[j] && b != r[j] && (f == b <==> |r| == 2) && f + BK != b + FD
  {
    assert Link(m, r, j) && Link(m, r, Pv(|r|, j));
    var x, y := Nx(|r|, j), Pv(|r|, j);
    assert x != j && y != j && (x == y <==> |r| == 2);
  }
}
