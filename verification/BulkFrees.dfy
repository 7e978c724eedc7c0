/** Freeing all the blocks that an array lists, adjacent ones together. */
module BulkFrees {
  import opened Memory
  import opened Bins
  import opened BinSteps
  import opened Layout
  import opened Segments
  import opened Tags
  import opened Moves
  import opened Retags
  import opened Invariant
  import opened Grants
  import opened Reallocs
  import opened Canonical

  /** The chunks of the blocks that an array of pointers lists; null pointers stand for nothing. */
  function ListedChunks(a: seq<int>): seq<int> {
    if a == [] then [] else if a[0] == 0 then ListedChunks(a[1..]) else [a[0] - 16] + ListedChunks(a[1..])
  }

  // ----- Merging two adjacent blocks

  lemma MergeTags(m: Mem, ck: Chunks, d: Chunks, p: int, s: int)
    requires Shape(ck) && Shape(d) && Tagged(m, ck) && CanMerge(ck, p) && d == Merge(ck, p)
    requires s == ck[p].size + ck[p + ck[p].size].size
    ensures var n := SetInuse(m, p, s); Tagged(n, d) && OnlyTags(m, n, d)
  {
    hide Shape, HeadWord, Tagged;
    var n, e := p + ck[p].size, p + s;
    NextIn(ck, p);
    NextIn(ck, n);
    SizePositive(ck, p);
    SizePositive(ck, n);
    ChunkIn(ck, p);
    ChunkIn(d, p);
    EndHead(m, ck, n);
    LiveHead(ck[p]);
    LiveHead(d[p]);
    assert TagOk(m, p, ck[p]) && TagOk(m, e, ck[e]) by { TagAt(m, ck, p); TagAt(m, ck, e); }
    Retag(m, SetInuse(m, p, s), ck, d, {p, e});
  }

  lemma TagAt(m: Mem, ck: Chunks, x: int)
    requires Tagged(m, ck) && x in ck
    ensures TagOk(m, x, ck[x])
  {
  }

  lemma MergeKeeps(ck: Chunks, d: Chunks, p: int, sz: map<int, int>, least: int, segs: seq<Segment>, dv: int,
                   dvsize: int, top: int, topsize: int)
    requires CanMerge(ck, p) && d == Merge(ck, p) && ck[p].size > 0 && FreeIn(ck, sz) && AboveLeast(ck, least)
    requires segs != []
    requires Settled(sz, ck, segs, dv, dvsize, top, topsize) && FreeOf(d) == FreeOf(ck) && Coalesced(d)
    ensures FreeIn(d, sz) && AboveLeast(d, least) && Settled(sz, d, segs, dv, dvsize, top, topsize)
  {
    hide Coalesced, FreeOf;
  }

  lemma MergeStep(m: Mem, smallmap: bv32, treemap: bv32, b: Bins, ck: Chunks, segs: seq<Segment>, least: int,
                  dv: int, dvsize: int, top: int, topsize: int, p: int, s: int)
    requires CanMerge(ck, p) && s == ck[p].size + ck[p + ck[p].size].size
    requires Loose(m, smallmap, treemap, b, ck, segs, least) && Settled(b.sz, ck, segs, dv, dvsize, top, topsize)
    ensures var n, d := SetInuse(m, p, s), Merge(ck, p);
      Loose(n, smallmap, treemap, b, d, segs, least) && Settled(b.sz, d, segs, dv, dvsize, top, topsize) && PayloadsKept(m, n, d)
  {
    hide Loose, LayoutOk, Shape, Tagged, SegList, Regions, BinsReady, OnlyTags, FreeIn, AboveLeast, Settled, Coalesced,
         FreeOf, LiveOf, SetInuse, PayloadsKept, Merge;
    LooseParts(m, smallmap, treemap, b, ck, segs, least);
    SettledCoalesced(b.sz, ck, segs, dv, dvsize, top, topsize);
    var d := Merge(ck, p);
    MergeOk(ck, segs, p);
    OkShape(d, segs);
    MergeTags(m, ck, d, p, s);
    NotNoSegments(ck, segs, p);
    SizePositive(ck, p);
    AtRestIs(b.sz, ck, segs, dv, dvsize, top, topsize);
    MergeFacts(ck, p);
    MergeKeeps(ck, d, p, b.sz, least, segs, dv, dvsize, top, topsize);
    TagStep(m, SetInuse(m, p, s), smallmap, treemap, b, ck, d, segs, least);
  }

  lemma MergeOk(ck: Chunks, segs: seq<Segment>, p: int)
    requires LayoutOk(ck, segs) && CanMerge(ck, p)
    ensures LayoutOk(Merge(ck, p), segs)
  {
    hide LayoutOk;
    JoinOk(ck, segs, p);
  }

  lemma AtRestIs(sz: map<int, int>, ck: Chunks, segs: seq<Segment>, dv: int, dvsize: int, top: int, topsize: int)
    requires Settled(sz, ck, segs, dv, dvsize, top, topsize) && LayoutOk(ck, segs) && segs != []
    ensures AtRest(ck, segs) && exists t :: t in ck && ck[t].kind == Top
  {
    hide LayoutOk, Coalesced, FreeOf;
    assert top in ck && ck[top].kind == Top;
  }

  // ----- The loop

  /** With `ck` and the entries `a` still to go, the loop is on its way to the layout `goal`. */
  ghost predicate Ahead(ck: Chunks, a: seq<int>, goal: Chunks) {
    AllLive(ck, ListedChunks(a)) && FreedEach(ck, ListedChunks(a)) == goal
  }

  lemma AllLiveTail(ck: Chunks, d: Chunks, p: int, ps: seq<int>)
    requires AllLive(ck, [p] + ps) && LiveOf(d) == LiveOf(ck) - {p}
    ensures AllLive(d, ps) && p in ck && ck[p].kind == Live
  {
    hide LiveOf;
    var qs := [p] + ps;
    forall i | 0 <= i < |ps| ensures ps[i] in LiveOf(d) { assert qs[i + 1] == ps[i] && qs[0] == p; }
    forall i, j | 0 <= i < j < |ps| ensures ps[i] != ps[j] { assert qs[i + 1] == ps[i] && qs[j + 1] == ps[j]; }
    assert qs[0] in LiveOf(ck);
    InLive(ck, p);
  }

  lemma InLive(ck: Chunks, p: int)
    requires p in LiveOf(ck)
    ensures p in ck && ck[p].kind == Live
  {
  }

  lemma FreedCons(ck: Chunks, p: int, ps: seq<int>)
    ensures FreedEach(ck, [p] + ps) == FreedEach(Free1(ck, p), ps)
  {
    hide Free1;
    assert ([p] + ps)[1..] == ps;
  }

  lemma SkipNull(ck: Chunks, a: seq<int>, goal: Chunks)
    requires Ahead(ck, a, goal) && a != [] && a[0] == 0
    ensures Ahead(ck, a[1..], goal)
  {
  }

  /** The next block listed is live. */
  lemma NextLive(ck: Chunks, a: seq<int>, goal: Chunks)
    requires Ahead(ck, a, goal) && a != [] && a[0] != 0
    ensures a[0] - 16 in ck && ck[a[0] - 16].kind == Live
  {
    hide LiveOf, FreedEach;
    assert ListedChunks(a)[0] == a[0] - 16;
    InLive(ck, a[0] - 16);
  }

  lemma Disposed(ck: Chunks, segs: seq<Segment>, a: seq<int>, goal: Chunks)
    requires Ahead(ck, a, goal) && a != [] && a[0] != 0
    requires AtRest(ck, segs)
    ensures Ahead(Free1(ck, a[0] - 16), a[1..], goal)
  {
    hide LiveOf, FreedEach, AllLive, Free1, AtRest;
    var p := a[0] - 16;
    NextLive(ck, a, goal);
    assert ListedChunks(a) == [p] + ListedChunks(a[1..]);
    FreedCons(ck, p, ListedChunks(a[1..]));
    Free1Is(ck, segs, p);
    AllLiveTail(ck, Free1(ck, p), p, ListedChunks(a[1..]));
  }

  /** The entries left once the block `r` has taken in the one listed next. */
  function Passed(a: seq<int>): seq<int>
    requires |a| >= 2
  {
    a[1..][0 := a[0]]
  }

  lemma PassedBlocks(a: seq<int>)
    requires |a| >= 2 && a[0] != 0 && a[1] != 0
    ensures ListedChunks(a) == [a[0] - 16] + ([a[1] - 16] + ListedChunks(a[2..]))
    ensures ListedChunks(Passed(a)) == [a[0] - 16] + ListedChunks(a[2..])
  {
    assert a[1..][1..] == a[2..] && Passed(a)[1..] == a[2..];
  }

  /** The block listed first and the one listed next are neighbours. */
  ghost predicate Neighbours(ck: Chunks, a: seq<int>) {
    && |a| >= 2 && a[0] != 0 && a[1] != 0
    && var p := a[0] - 16; p in ck && ck[p].kind == Live && a[1] == p + ck[p].size + 16
  }

  lemma NeighboursMerge(ck: Chunks, a: seq<int>, goal: Chunks)
    requires Ahead(ck, a, goal) && Neighbours(ck, a)
    ensures CanMerge(ck, a[0] - 16)
  {
    hide LiveOf, FreedEach;
    PassedBlocks(a);
    assert ListedChunks(a)[1] == a[1] - 16;
    InLive(ck, a[1] - 16);
  }

  lemma MergedLive(ck: Chunks, d: Chunks, p: int, n: int, s: int, ps: seq<int>)
    requires AllLive(ck, [p] + ([n] + ps)) && LiveOf(d) == (LiveOf(ck) - {n})[p := s]
    ensures AllLive(d, [p] + ps)
  {
    hide LiveOf;
    var xs, ys := [p] + ([n] + ps), [p] + ps;
    assert xs[0] == p && xs[1] == n;
    forall i | 0 <= i < |ys| ensures ys[i] in LiveOf(d) { if i > 0 { assert xs[i + 1] == ys[i]; } }
    forall i, j | 0 <= i < j < |ys|
      ensures ys[i] != ys[j]
    {
      assert xs[j + 1] == ys[j] && (i > 0 ==> xs[i + 1] == ys[i]);
    }
  }

  lemma Paired(ck: Chunks, segs: seq<Segment>, a: seq<int>, goal: Chunks)
    requires Ahead(ck, a, goal) && Neighbours(ck, a)
    requires AtRest(ck, segs)
    ensures Ahead(Merge(ck, a[0] - 16), Passed(a), goal)
  {
    hide LiveOf, FreedEach, AllLive, Free1, AtRest, Merge, FreeOf, Coalesced, ListedChunks, LayoutOk, Shape;
    var p, n, ps := a[0] - 16, a[1] - 16, ListedChunks(a[2..]);
    NeighboursMerge(ck, a, goal);
    PassedBlocks(a);
    var d := Merge(ck, p);
    MergeThenFree(ck, segs, p);
    FreedCons(ck, p, [n] + ps);
    FreedCons(Free1(ck, p), n, ps);
    FreedCons(d, p, ps);
    AtRestParts(ck, segs);
    SizePositive(ck, p);
    assert exists t :: t in ck && ck[t].kind == Top by { AtRestTop(ck, segs); }
    MergeFacts(ck, p);
    MergedLive(ck, d, p, n, ck[p].size + ck[n].size, ps);
  }

  lemma AtRestTop(ck: Chunks, segs: seq<Segment>)
    requires AtRest(ck, segs)
    ensures exists t :: t in ck && ck[t].kind == Top
  {
    hide LayoutOk, Coalesced;
  }

  // ----- What the loop keeps

  /** The blocks that stay are among the live ones. */
  lemma GoalLive(ck: Chunks, segs: seq<Segment>, a: seq<int>, goal: Chunks)
    requires Ahead(ck, a, goal)
    requires AtRest(ck, segs)
    ensures AtRest(goal, segs) && LiveOf(goal) == LiveOf(ck) - (set x | x in ListedChunks(a))
  {
    hide LiveOf, AtRest, FreedEach;
    FreedEachIs(ck, segs, ListedChunks(a));
  }

  lemma KeptFewer(m: Mem, n: Mem, live: map<int, int>, fewer: map<int, int>, xs: set<int>)
    requires BlocksKept(m, n, live) && fewer == live - xs
    ensures BlocksKept(m, n, fewer)
  {
  }

  // ----- Steps of the loop

  lemma BulkReads(m: Mem, smallmap: bv32, treemap: bv32, b: Bins, ck: Chunks, segs: seq<Segment>, least: int, p: int,
                  dv: int, dvsize: int, top: int, topsize: int)
    requires p in ck && ck[p].kind == Live
    requires Loose(m, smallmap, treemap, b, ck, segs, least) && Settled(b.sz, ck, segs, dv, dvsize, top, topsize)
    ensures p >= least && IsInUse(Rd(m, p + HEAD)) && ChunkSize(Rd(m, p + HEAD)) == ck[p].size && ck[p].size > 0
    ensures p > 0
    ensures segs != [] && AtRest(ck, segs) && LayoutOk(ck, segs)
  {
    hide Loose, Held, LayoutOk, Settled, Shape, AtRest;
    ReallocReads(m, smallmap, treemap, b, ck, segs, least, p, dv, dvsize, top, topsize);
    assert LayoutOk(ck, segs) by { LooseParts(m, smallmap, treemap, b, ck, segs, least); }
    AtRestIs(b.sz, ck, segs, dv, dvsize, top, topsize);
  }

  /** One entry's block is merged with the next entry's. */
  lemma EntryMerged(l: Mem, m: Mem, smallmap: bv32, treemap: bv32, b: Bins, ck: Chunks, segs: seq<Segment>, least: int,
                    dv: int, dvsize: int, top: int, topsize: int, a: seq<int>, goal: Chunks, s: int)
    requires Neighbours(ck, a) && Ahead(ck, a, goal) && BlocksKept(l, m, LiveOf(goal)) && s == NeighboursSize(ck, a)
    requires Loose(m, smallmap, treemap, b, ck, segs, least) && Settled(b.sz, ck, segs, dv, dvsize, top, topsize)
    ensures var p := a[0] - 16; var n, d := SetInuse(m, p, s), Merge(ck, p);
      && Loose(n, smallmap, treemap, b, d, segs, least) && Settled(b.sz, d, segs, dv, dvsize, top, topsize)
      && Ahead(d, Passed(a), goal) && BlocksKept(l, n, LiveOf(goal))
  {
    hide Loose, Settled, LiveOf, BlocksKept, SetInuse, Merge, Ahead, AtRest, PayloadsKept, LayoutOk, ListedChunks;
    var p := a[0] - 16;
    var n, d := SetInuse(m, p, s), Merge(ck, p);
    NeighboursMerge(ck, a, goal);
    BulkReads(m, smallmap, treemap, b, ck, segs, least, p, dv, dvsize, top, topsize);
    MergeStep(m, smallmap, treemap, b, ck, segs, least, dv, dvsize, top, topsize, p, s);
    Paired(ck, segs, a, goal);
    LooseParts(n, smallmap, treemap, b, d, segs, least);
    AtRestIs(b.sz, d, segs, dv, dvsize, top, topsize);
    GoalLive(d, segs, Passed(a), goal);
    KeptBlocks(m, n, d, LiveOf(d)) by { LiveIn(d); }
    KeptFewer(m, n, LiveOf(d), LiveOf(goal), set x | x in ListedChunks(Passed(a)));
    BlocksTwice(l, m, n, LiveOf(goal));
  }

  ghost function NeighboursSize(ck: Chunks, a: seq<int>): int {
    if Neighbours(ck, a) && a[1] - 16 in ck then ck[a[0] - 16].size + ck[a[1] - 16].size else 0
  }

  lemma LiveIn(ck: Chunks)
    ensures forall a | a in LiveOf(ck) :: a in ck && ck[a].kind == Live && ck[a].size == LiveOf(ck)[a]
  {
  }

  /** One entry's block was disposed of. */
  lemma EntryDisposed(l: Mem, m: Mem, n: Mem, ck: Chunks, d: Chunks, segs: seq<Segment>, a: seq<int>, goal: Chunks)
    requires a != [] && a[0] != 0 && Ahead(ck, a, goal) && BlocksKept(l, m, LiveOf(goal))
    requires d == Free1(ck, a[0] - 16) && BlocksKept(m, n, LiveOf(d))
    requires AtRest(ck, segs)
    ensures Ahead(d, a[1..], goal) && BlocksKept(l, n, LiveOf(goal))
  {
    hide LiveOf, BlocksKept, Ahead, AtRest, ListedChunks, Free1;
    Disposed(ck, segs, a, goal);
    assert AtRest(d, segs) by { NextLive(ck, a, goal); Free1Is(ck, segs, a[0] - 16); }
    GoalLive(d, segs, a[1..], goal);
    KeptFewer(m, n, LiveOf(d), LiveOf(goal), set x | x in ListedChunks(a[1..]));
    BlocksTwice(l, m, n, LiveOf(goal));
  }

  /** The end of the loop. */
  lemma AheadNone(ck: Chunks, goal: Chunks)
    requires Ahead(ck, [], goal)
    ensures ck == goal
  {
  }

  /** What the whole call frees. */
  lemma GoalIs(sz: map<int, int>, ck: Chunks, segs: seq<Segment>, dv: int, dvsize: int, top: int, topsize: int,
               a: seq<int>, goal: Chunks)
    requires Ahead(ck, a, goal)
    requires Settled(sz, ck, segs, dv, dvsize, top, topsize) && LayoutOk(ck, segs)
    ensures LiveOf(goal) == LiveOf(ck) - (set x | x in ListedChunks(a))
  {
    hide AtRest, LayoutOk, Coalesced, FreeOf, Settled;
    if segs == [] {
      NoneLive(sz, ck, dv, dvsize, top, topsize);
      SomeLive(ck, ListedChunks(a));
      assert LiveOf(goal) == LiveOf(ck) - (set x | x in ListedChunks(a));
    } else {
      AtRestIs(sz, ck, segs, dv, dvsize, top, topsize);
      GoalLive(ck, segs, a, goal);
    }
  }

  lemma SomeLive(ck: Chunks, ps: seq<int>)
    requires AllLive(ck, ps)
    ensures ps == [] || LiveOf(ck) != map[]
  {
    if ps != [] {
      assert ps[0] in LiveOf(ck);
    }
  }

  lemma NoneLive(sz: map<int, int>, ck: Chunks, dv: int, dvsize: int, top: int, topsize: int)
    requires Settled(sz, ck, [], dv, dvsize, top, topsize)
    ensures LiveOf(ck) == map[]
  {
  }

  lemma AheadAll(ck: Chunks, a: seq<int>)
    requires AllLive(ck, ListedChunks(a))
    ensures Ahead(ck, a, FreedEach(ck, ListedChunks(a)))
  {
  }

  lemma Free1Freed(ck: Chunks, p: int)
    requires p in ck && ck[p].kind == Live && RunBase(ck, p) in ck
    ensures Free1(ck, p) == Freed(ck, p)
  {
  }
}
