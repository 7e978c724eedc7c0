/** The zeroed malloc_state, from which all runs begin. */
module FirstState {
  import opened Memory
  import opened BinMap
  import opened Bins
  import opened BinSteps
  import opened Segments
  import opened Tags
  import opened Moves
  import opened Invariant
  import opened SystemSizes

  ghost predicate Zeroed(m: Mem) {
    forall w | STATE <= w < STATE + STATE_SIZE :: Rd(m, w) == 0
  }

  lemma EmptyBins(m: Mem)
    requires Zeroed(m)
    ensures BinsReady(m, 0, 0, EMPTY, 0)
  {
    hide Marked;
    NoneMarked(0);
    forall i | 0 <= i < NBINS ensures SmallBinOk(m, 0, EMPTY.small[i], i) && SlotOk(m, 0, EMPTY.trie, i) {
      assert !Marked(0, i);
    }
  }

  lemma NoLayout(m: Mem)
    ensures LayoutOk(map[], []) && Tagged(m, map[]) && AboveLeast(map[], 0) && FreeIn(map[], EMPTY.sz)
    ensures Settled(EMPTY.sz, map[], [], 0, 0, 0, 0) && SegTotal([]) == 0 && Total(LiveOf(map[])) == 0
  {
    assert LiveOf(map[]) == map[];
    assert FreeOf(map[]) - {0} == map[];
  }

  /** A zeroed malloc_state satisfies the heap's invariant. */
  lemma ZeroedReady(m: Mem)
    requires Zeroed(m)
    ensures Loose(m, 0, 0, EMPTY, map[], [], 0) && Settled(EMPTY.sz, map[], [], 0, 0, 0, 0)
  {
    hide BinsReady, LayoutOk, Tagged, Settled;
    EmptyBins(m);
    NoLayout(m);
  }
}
