/** malloc_state and the operations of Heap_DL.cpp on it. */
module Heap {
  import opened Memory
  import opened Bits
  import opened BinMap
  import opened Ring
  import opened Tries
  import opened Bins
  import opened SmallBins
  import opened TreeBins
  import opened TreeReads
  import opened BinSteps
  import opened BestFit
  import opened Layout
  import opened Segments
  import opened Tags
  import opened Moves
  import opened Retags
  import opened Invariant
  import opened Grants
  import opened Frees
  import opened Growth
  import opened SegmentGrowth
  import opened SystemSteps
  import opened SystemSizes
  import opened Sweeps
  import opened Choice
  import opened Joins
  import opened Reallocs
  import opened Blocks
  import opened Aligned
  import opened BulkFrees
  import opened Canonical
  import opened HeapWalk
  import opened FirstState

  /** The heap: its memory and the fields of malloc_state, with ghost descriptions of the bins. */
  class MallocState {
    var mem: Mem
    var smallmap: bv32
    var treemap: bv32
    var leastAddr: int
    var dv: int
    var dvsize: int
    var top: int
    var topsize: int
    var trimCheck: int
    var releaseChecks: int
    var footprint: int
    var maxFootprint: int
    var footprintLimit: int
    var inUseBytes: int
    ghost var bins: Bins
    ghost var ck: Chunks
    ghost var segs: seq<Segment>

    // ----- What the bin operations need

    ghost predicate BinsValid()
      reads this
    {
      BinsReady(mem, smallmap, treemap, bins, leastAddr)
    }

    /** What holds inside an operation. */
    ghost predicate Phase()
      reads this
    {
      Loose(mem, smallmap, treemap, bins, ck, segs, leastAddr)
    }

    /** What still holds when the segment list and the layout are out of step. */
    ghost predicate Holding()
      reads this
    {
      Held(mem, smallmap, treemap, bins, ck, leastAddr)
    }

    /** What holds between operations. */
    ghost predicate Valid()
      reads this
    {
      Phase() && Settled(bins.sz, ck, segs, dv, dvsize, top, topsize)
    }

    /** The footprint is what the segments add up to. */
    ghost predicate Accounted()
      reads this`segs, this`footprint, this`maxFootprint
    {
      footprint == SegTotal(segs) && footprint <= maxFootprint
    }

    /** The running counter of bytes in use is what the live blocks add up to. */
    ghost predicate Counted()
      reads this`ck, this`inUseBytes
    {
      inUseBytes == Total(LiveOf(ck))
    }

    /** A zeroed malloc_state, in whatever memory there is. */
    constructor (m: Mem)
      requires Zeroed(m)
      ensures Valid() && Accounted() && Counted() && mem == m && LiveOf(ck) == map[] && segs == []
      ensures footprintLimit == 0
    {
      mem, smallmap, treemap, leastAddr, dv, dvsize, top, topsize := m, 0, 0, 0, 0, 0, 0, 0;
      trimCheck, releaseChecks, footprint, maxFootprint, footprintLimit, inUseBytes := 0, 0, 0, 0, 0, 0;
      bins, ck, segs := EMPTY, map[], [];
      new;
      hide Loose, Settled, SegTotal, Total;
      ZeroedReady(m);
      NoLayout(m);
    }

    /** insert_small_chunk */
    method InsertSmallChunk(p: int, s: int)
      requires BinsValid() && SmallSize(s) && Fresh(bins.sz, p, s) && p >= leastAddr
      requires ChunkSize(Rd(mem, p + HEAD)) == s
      modifies this`mem, this`smallmap, this`bins
      ensures BinsValid()
      ensures |old(bins.small)| == NBINS && bins == AddSmall(old(bins), p, s)
      ensures Within(old(mem), mem, bins.sz)
    {
      hide Marked, Mark, Within, Fresh, FirstOf, BinsOk, SizeTags, AllAbove;
      var i := s / 8;
      var b := SmallBinAt(i);
      var f := b;
      SmallReady(mem, smallmap, treemap, bins, i, leastAddr);
      if !Marked(smallmap, i) {
        smallmap := Mark(smallmap, i);
      } else if Rd(mem, b + FD) >= leastAddr {
        f := Rd(mem, b + FD);
      } else {
        assert false;  // CORRUPTION_ERROR_ACTION
      }
      mem := mem[b + FD := p];
      mem := mem[f + BK := p];
      mem := mem[p + FD := f];
      mem := mem[p + BK := b];
      SmallInserted(old(mem), mem, old(smallmap), treemap, bins, p, s, leastAddr, f);
      bins := AddSmall(bins, p, s);
    }

    /** unlink_first_small_chunk: `p` is the chunk at the front of the marked bin `i`. */
    method UnlinkFirstSmallChunk(p: int, i: nat)
      requires BinsValid() && i < NBINS && Marked(smallmap, i) && p == Rd(mem, SmallBinAt(i) + FD)
      modifies this`mem, this`smallmap, this`bins
      ensures BinsValid()
      ensures p in old(bins.sz) && old(bins.sz[p]) == 8 * i && SmallSize(8 * i)
      ensures bins.sz == old(bins.sz) - {p}
      ensures Within(old(mem), mem, old(bins.sz))
    {
      hide Marked, Clear, Within, BinsOk, SizeTags, AllAbove;
      FirstMember(mem, smallmap, treemap, bins, i, leastAddr);
      SmallLinks(mem, smallmap, treemap, bins, i, 0, leastAddr);
      var b, f := SmallBinAt(i), Rd(mem, p + FD);
      if b == f {
        smallmap := Clear(smallmap, i);
      } else if f >= leastAddr && Rd(mem, f + BK) == p {
        mem := mem[f + BK := b];
        mem := mem[b + FD := f];
      } else {
        assert false;  // CORRUPTION_ERROR_ACTION
      }
      OutWrites(old(mem), mem, bins, i, 0);
      SmallRemoved(old(mem), mem, old(smallmap), treemap, bins, i, 0, leastAddr);
      bins := DropSmall(bins, i, 0);
    }

    /** unlink_small_chunk */
    method UnlinkSmallChunk(p: int, s: int)
      requires BinsValid() && p in bins.sz && bins.sz[p] == s && s < 256
      modifies this`mem, this`smallmap, this`bins
      ensures BinsValid()
      ensures bins.sz == old(bins.sz) - {p}
      ensures Within(old(mem), mem, old(bins.sz))
    {
      hide Marked, Clear, Within, BinsOk, SizeTags, AllAbove;
      ghost var k := SmallMember(mem, smallmap, treemap, bins, p, leastAddr);
      SmallLinks(mem, smallmap, treemap, bins, s / 8, k, leastAddr);
      var f, b, i := Rd(mem, p + FD), Rd(mem, p + BK), s / 8;
      if f == SmallBinAt(i) || (f >= leastAddr && Rd(mem, f + BK) == p) {
        if b == f {
          smallmap := Clear(smallmap, i);
        } else if b == SmallBinAt(i) || (b >= leastAddr && Rd(mem, b + FD) == p) {
          mem := mem[f + BK := b];
          mem := mem[b + FD := f];
        } else {
          assert false;  // CORRUPTION_ERROR_ACTION
        }
      } else {
        assert false;  // CORRUPTION_ERROR_ACTION
      }
      OutWrites(old(mem), mem, bins, i, k);
      SmallRemoved(old(mem), mem, old(smallmap), treemap, bins, i, k, leastAddr);
      bins := DropSmall(bins, i, k);
    }

    /** insert_large_chunk */
    method InsertLargeChunk(x: int, s: int)
      requires BinsValid() && LargeSize(s) && Fresh(bins.sz, x, s) && x >= leastAddr
      requires ChunkSize(Rd(mem, x + HEAD)) == s
      modifies this`mem, this`treemap, this`bins
      ensures BinsValid()
      ensures bins.sz == old(bins.sz)[x := s] && bins.small == old(bins.small)
      ensures Within(old(mem), mem, bins.sz)
    {
      hide BinsReady, Marked, Mark, Within, Fresh, Path, Sh, Shl, SizeAt, Searching, TreeIndex, Width, RootQ, Prepared;
      ghost var b0, m0 := bins, mem;
      TreeIndexBound(s);
      var i := TreeIndex(s);
      var h := TreeBinAt(i);
      mem := mem[x + INDEX := i];
      mem := mem[x + CHILD := 0];
      mem := mem[x + CHILD + 8 := 0];
      ghost var m1 := mem;
      PreparedIs(m0, m1, x, i);
      if !Marked(treemap, i) {
        treemap := Mark(treemap, i);
        mem := mem[h := x];
        mem := mem[x + PARENT := h];
        mem := mem[x + FD := x];
        mem := mem[x + BK := x];
        FirstOfBin(m0, m1, mem, smallmap, old(treemap), b0, x, s, leastAddr);
        bins := AddLarge(b0, x, s, AddLeaf(b0.trie, x, Root(i)));
      } else {
        StartReady(m0, m1, smallmap, treemap, b0, x, s, leastAddr);
        var t := Rd(mem, h);
        var k := Shl(s, LeftShiftForTreeIndex(i));
        ghost var w := Width(i);
        while true
          invariant mem == m1 && bins == b0 && treemap == old(treemap)
          invariant 0 <= w <= 64 && LargeSize(s) && k == Shl(s, 64 - w)
          invariant Searching(b0.trie, b0.sz, s, w) && t == Head(b0.trie, Path(s, w))
          decreases w
        {
          SearchChecks(m0, m1, smallmap, treemap, b0, x, s, w, leastAddr);
          if ChunkSize(Rd(mem, t + HEAD)) != s {
            var c := t + CHILD + 8 * (k / 0x8000_0000_0000_0000);
            k := (2 * k) % W64;
            if Rd(mem, c) != 0 {
              t := Rd(mem, c);
              w := w - 1;
            } else if c >= leastAddr {
              mem := mem[c := x];
              mem := mem[x + PARENT := t];
              mem := mem[x + FD := x];
              mem := mem[x + BK := x];
              FoundSlot(m0, m1, mem, smallmap, treemap, b0, x, s, w, leastAddr);
              bins := AddLarge(b0, x, s, AddLeaf(b0.trie, x, Path(s, w - 1)));
              break;
            } else {
              assert false;  // CORRUPTION_ERROR_ACTION
            }
          } else {
            var f := Rd(mem, t + FD);
            if t >= leastAddr && f >= leastAddr {
              mem := mem[f + BK := x];
              mem := mem[t + FD := x];
              mem := mem[x + FD := f];
              mem := mem[x + BK := t];
              mem := mem[x + PARENT := 0];
              FoundSize(m0, m1, mem, smallmap, treemap, b0, x, s, w, leastAddr);
              bins := AddLarge(b0, x, s, AddChained(b0.trie, x, Path(s, w)));
              break;
            } else {
              assert false;  // CORRUPTION_ERROR_ACTION
            }
          }
        }
      }
    }

    /** The last step of unlink_large_chunk: `r`, or nothing if it is 0, takes over the tree links of
        the node `x`, whose parent word is `xp`. */
    method Relink(x: int, xp: int, r: int, ghost slot: int, ghost root: bool, ghost i: nat)
      requires i < NBINS && Rd(mem, x + INDEX) == i && LeadsTo(mem, x, xp, slot, root, i)
      requires root || xp >= leastAddr
      requires r == 0 || (r >= leastAddr && Far(r, x))
      requires slot < x || x + 64 <= slot
      requires ChildOk(Rd(mem, x + CHILD), x, leastAddr) && ChildOk(Rd(mem, x + CHILD + 8), x, leastAddr)
      modifies this`mem, this`treemap
      ensures r == 0 ==> mem == old(mem)[slot := 0] && treemap == ClearIf(root, old(treemap), i)
      ensures r != 0 ==> mem == Relinked(old(mem), x, r, slot, xp) && treemap == old(treemap)
    {
      hide Clear, Marked;
      var h := TreeBinAt(Rd(mem, x + INDEX));
      if x == Rd(mem, h) {
        mem := mem[h := r];
        if r == 0 {
          treemap := Clear(treemap, Rd(mem, x + INDEX));
        }
      } else if xp >= leastAddr {
        if Rd(mem, xp + CHILD) == x {
          mem := mem[xp + CHILD := r];
        } else {
          mem := mem[xp + CHILD + 8 := r];
        }
      } else {
        assert false;  // CORRUPTION_ERROR_ACTION
      }
      if r != 0 {
        if r >= leastAddr {
          mem := mem[r + PARENT := xp];
          var c0 := Rd(mem, x + CHILD);
          if c0 != 0 {
            if c0 >= leastAddr {
              mem := mem[r + CHILD := c0];
              mem := mem[c0 + PARENT := r];
            } else {
              assert false;  // CORRUPTION_ERROR_ACTION
            }
          }
          var c1 := Rd(mem, x + CHILD + 8);
          if c1 != 0 {
            if c1 >= leastAddr {
              mem := mem[r + CHILD + 8 := c1];
              mem := mem[c1 + PARENT := r];
            } else {
              assert false;  // CORRUPTION_ERROR_ACTION
            }
          }
        } else {
          assert false;  // CORRUPTION_ERROR_ACTION
        }
      }
    }

    /** unlink_large_chunk */
    method UnlinkLargeChunk(x: int)
      requires BinsValid() && x in bins.trie.loc
      modifies this`mem, this`treemap, this`bins
      ensures BinsValid()
      ensures x in old(bins.sz) && old(bins.sz[x]) >= 256
      ensures bins.sz == old(bins.sz) - {x} && bins.small == old(bins.small)
      ensures Within(old(mem), mem, old(bins.sz))
    {
      hide BinsReady, Marked, Clear, ClearIf, Within, SlotAddr, ParentWord, ChildWord, Width, RootQ, Far, LeadsTo,
           RelinkReady, LinksOut, Reheads, Relinked, AllAbove, ChildOk,
           Remaining, Without, Replace, Vacated, Below, Childless, Child;
      ghost var b, m0, t := bins, mem, bins.trie;
      ghost var k := LargeMember(mem, smallmap, treemap, bins, x, leastAddr);
      ghost var p := t.loc[x];
      var xp := Rd(mem, x + PARENT);
      if Rd(mem, x + BK) != x {
        var f := Rd(mem, x + FD);
        var r := Rd(mem, x + BK);
        ChainLinks(m0, smallmap, treemap, b, p, k, leastAddr);
        if f >= leastAddr && Rd(mem, f + BK) == x && Rd(mem, r + FD) == x {
          mem := mem[f + BK := r];
          mem := mem[r + FD := f];
        } else {
          assert false;  // CORRUPTION_ERROR_ACTION
        }
        OutIs(m0, r, f);
        if xp != 0 {
          ghost var m1 := mem;
          HeadReady(m0, m1, smallmap, treemap, b, p, leastAddr);
          BinsAbove(m0, smallmap, treemap, b, leastAddr);
          RelinkReads(m1, treemap, t, b.sz, p, x, leastAddr);
          Relink(x, xp, r, SlotAddr(t, p), p.w == Width(p.i), p.i);
          RelinkWrites(m1, x, r, SlotAddr(t, p), xp);
          HeadStep(m0, m1, mem, smallmap, treemap, b, p, leastAddr);
          bins := DropLarge(b, x, DropMember(t, x, Remaining(t.at[p])));
        } else {
          TailStep(m0, mem, smallmap, treemap, b, p, k, leastAddr);
          bins := DropLarge(b, x, DropMember(t, x, Without(t.at[p], k)));
        }
      } else {
        var rp := x + CHILD + 8;
        var r := Rd(mem, rp);
        if r == 0 {
          rp := x + CHILD;
          r := Rd(mem, rp);
        }
        WalkReads(m0, smallmap, treemap, b, p, p, leastAddr);
        if r != 0 {
          ghost var l := Child(p, if Rd(mem, x + CHILD + 8) != 0 then 1 else 0);
          while true
            invariant mem == m0 && bins == b && treemap == old(treemap)
            invariant AtOrBelow(t, l, p) && Below(l, p) && l != p && r == Head(t, l) && rp == SlotAddr(t, l)
            invariant rp >= leastAddr
            decreases l.w
          {
            WalkReads(m0, smallmap, treemap, b, l, p, leastAddr);
            ChildLower(l);
            var cp := r + CHILD + 8;
            if Rd(mem, cp) == 0 {
              cp := r + CHILD;
            }
            if Rd(mem, cp) == 0 {
              break;
            }
            l := Child(l, if Rd(mem, r + CHILD + 8) != 0 then 1 else 0);
            rp := cp;
            r := Rd(mem, rp);
          }
          if rp >= leastAddr {
            mem := mem[rp := 0];
          } else {
            assert false;  // CORRUPTION_ERROR_ACTION
          }
          ghost var m1 := mem;
          LeafReads(m0, smallmap, treemap, b, x, p, l, leastAddr);
          InnerReady(m0, m1, smallmap, treemap, b, x, p, l, leastAddr);
          BinsAbove(m0, smallmap, treemap, b, leastAddr);
          RelinkReads(m1, treemap, Vacated(t, l), b.sz, p, x, leastAddr);
          Relink(x, xp, r, SlotAddr(t, p), p.w == Width(p.i), p.i);
          RelinkWrites(m1, x, r, SlotAddr(t, p), xp);
          InnerStep(m0, m1, mem, smallmap, treemap, b, x, p, l, leastAddr);
          bins := DropLarge(b, x, Replace(t, x, l));
        } else {
          LeafReady(m0, smallmap, treemap, b, x, p, leastAddr);
          BinsAbove(m0, smallmap, treemap, b, leastAddr);
          RelinkReads(m0, treemap, t, b.sz, p, x, leastAddr);
          Relink(x, xp, r, SlotAddr(t, p), p.w == Width(p.i), p.i);
          LeafDropped(m0, mem, smallmap, old(treemap), b, x, p, leastAddr);
          bins := DropLarge(b, x, DropLeaf(t, x));
        }
      }
    }

    /** The first loop of tmalloc_large: the walk from the root `t0` towards a node of exactly the wanted size.
        Left to search is the subtree at `t`, if it is not null. */
    method WalkTowards(nb: int, t0: int) returns (v: int, rsize: int, t: int, ghost q: Pos)
      requires BinsValid() && LargeSize(nb) && TreeIndex(nb) < NTREEBINS && t0 == Rd(mem, TreeBinAt(TreeIndex(nb)))
      requires t0 != 0
      ensures
        if t == 0 && v == 0 then
          rsize == W64 - nb && HigherOnly(bins.trie, bins.sz, nb, rsize) && Best(bins.trie, bins.sz, nb, v, rsize)
        else Descending(bins.trie, bins.sz, nb, v, rsize, t, q)
    {
      hide BinsReady, Sh, Shl, SizeAt, TreeIndex, Width, RootQ, Pending, Enough, NoneTighter, HigherOnly;
      v := 0;
      rsize := W64 - nb;
      t := t0;
      q := Root(0);
      WalkBegins(mem, smallmap, treemap, bins, nb, q, leastAddr);
      var sizebits := Shl(nb, LeftShiftForTreeIndex(TreeIndex(nb)));
      var rst := 0;
      ghost var o := q;
      ghost var w := Width(TreeIndex(nb));
      while true
        invariant Path(nb, w) in bins.trie.at && t == Head(bins.trie, Path(nb, w))
        invariant Walking(bins.trie, bins.sz, nb, v, rsize, w, rst, o)
        invariant 0 <= w <= 64 && sizebits == Shl(nb, 64 - w)
        decreases w
      {
        WalkWeigh(mem, smallmap, treemap, bins, nb, v, rsize, w, rst, o, leastAddr);
        var trem := Sub64(ChunkSize(Rd(mem, t + HEAD)), nb);
        if trem < rsize {
          v := t;
          rsize := trem;
          if rsize == 0 {
            q := Path(nb, w);
            break;
          }
        }
        WalkMemory(mem, smallmap, treemap, bins, nb, v, rsize, w, rst, o, leastAddr);
        var rt := Rd(mem, t + CHILD + 8);
        t := Rd(mem, t + CHILD + 8 * (sizebits / 0x8000_0000_0000_0000));
        if rt != 0 && rt != t {
          rst := rt;
        }
        o := NextAside(bins.trie, nb, w, o);
        w := w - 1;
        if t == 0 {
          WalkLeft(mem, smallmap, treemap, bins, nb, v, rsize, w, rst, o, leastAddr);
          q := o;
          t := rst;
          break;
        }
        sizebits := (2 * sizebits) % W64;
      }
    }

    /** The second loop of tmalloc_large: the leftmost path of the subtree `t0`, if there is one. */
    method WalkLeftmost(nb: int, v0: int, r0: int, t0: int, ghost q0: Pos) returns (v: int, rsize: int)
      requires BinsValid() && Descending(bins.trie, bins.sz, nb, v0, r0, t0, q0)
      ensures Best(bins.trie, bins.sz, nb, v, rsize) && NoneTighter(bins.trie, bins.sz, nb, rsize)
    {
      hide BinsReady, SizeAt, Pending, Enough, NoneTighter, Leftmost;
      v, rsize := v0, r0;
      var t := t0;
      ghost var q := q0;
      while t != 0
        invariant Descending(bins.trie, bins.sz, nb, v, rsize, t, q)
        decreases q.w, t
      {
        DescendWeigh(mem, smallmap, treemap, bins, nb, v, rsize, t, q, leastAddr);
        ghost var v', r' := v, rsize;
        var trem := Sub64(ChunkSize(Rd(mem, t + HEAD)), nb);
        if trem < rsize {
          rsize := trem;
          v := t;
        }
        DescendMemory(mem, smallmap, treemap, bins, nb, v', r', v, rsize, t, q, leastAddr);
        t := if Rd(mem, t + CHILD) != 0 then Rd(mem, t + CHILD) else Rd(mem, t + CHILD + 8);
        q := Leftmost(bins.trie, q);
      }
    }

    /** The search of tmalloc_large: the tree chunk that fits a request of `nb` bytes most tightly. */
    method FindBestLarge(nb: int) returns (v: int, rsize: int)
      requires BinsValid() && LargeSize(nb)
      ensures Best(bins.trie, bins.sz, nb, v, rsize) && NoneTighter(bins.trie, bins.sz, nb, rsize)
    {
      hide BinsReady, TreeIndex, RootQ, Width, Marked, FirstMarked, LeftOf, LeastBit, Bit2Idx, Idx, Pending, Enough,
           NoneTighter, HigherOnly;
      v := 0;
      rsize := W64 - nb;
      TreeIndexBound(nb);
      var idx := TreeIndex(nb);
      var t := Rd(mem, TreeBinAt(idx));
      ghost var q := Root(0);
      if t != 0 {
        v, rsize, t, q := WalkTowards(nb, t);
      } else {
        NoWalk(mem, smallmap, treemap, bins, nb, leastAddr);
      }
      if t == 0 && v == 0 {
        LeastAbove(treemap, idx);
        var leftbits := LeftOf(treemap, Idx(idx));
        if leftbits != 0 {
          var i := Bit2Idx(LeastBit(leftbits));
          NextBin(mem, smallmap, treemap, bins, nb, v, rsize, i, leastAddr);
          q := Root(i);
          t := Rd(mem, TreeBinAt(i));
        } else {
          NoNextBin(mem, smallmap, treemap, bins, nb, rsize, leastAddr);
        }
      }
      v, rsize := WalkLeftmost(nb, v, rsize, t, q);
    }

    /** The search of tmalloc_small: the smallest tree chunk, found by the leftmost path alone. */
    method FindBestSmall(nb: int) returns (v: int, rsize: int)
      requires BinsValid() && 0 < nb < 256 && treemap != 0
      ensures v != 0 && Best(bins.trie, bins.sz, nb, v, rsize) && NoneTighter(bins.trie, bins.sz, nb, rsize)
    {
      hide BinsReady, SizeAt, Marked, FirstMarked, LeastBit, Bit2Idx, Pending, Enough, NoneTighter, Leftmost;
      Least(treemap);
      var i := Bit2Idx(LeastBit(treemap));
      SmallestBin(mem, smallmap, treemap, bins, nb, i, leastAddr);
      ghost var q := Root(i);
      var t := Rd(mem, TreeBinAt(i));
      v := t;
      rsize := ChunkSize(Rd(mem, t + HEAD)) - nb;
      RootWeigh(mem, smallmap, treemap, bins, nb, t, q, leastAddr);
      DescendMemory(mem, smallmap, treemap, bins, nb, 0, W64 - nb, v, rsize, t, q, leastAddr);
      t := if Rd(mem, t + CHILD) != 0 then Rd(mem, t + CHILD) else Rd(mem, t + CHILD + 8);
      q := Leftmost(bins.trie, q);
      while t != 0
        invariant v != 0 && Descending(bins.trie, bins.sz, nb, v, rsize, t, q)
        decreases q.w, t
      {
        DescendWeigh(mem, smallmap, treemap, bins, nb, v, rsize, t, q, leastAddr);
        ghost var v0, r0 := v, rsize;
        var trem := Sub64(ChunkSize(Rd(mem, t + HEAD)), nb);
        if trem < rsize {
          rsize := trem;
          v := t;
        }
        DescendMemory(mem, smallmap, treemap, bins, nb, v0, r0, v, rsize, t, q, leastAddr);
        t := if Rd(mem, t + CHILD) != 0 then Rd(mem, t + CHILD) else Rd(mem, t + CHILD + 8);
        q := Leftmost(bins.trie, q);
      }
    }

    // ----- Bin operations on chunks of the heap

    /** insert_chunk */
    method InsertChunk(p: int, s: int)
      requires Phase() && p in ck && ck[p] == Chunk(s, Free, 0) && p !in bins.sz
      modifies this`mem, this`smallmap, this`treemap, this`bins
      ensures Phase() && bins.sz == old(bins.sz)[p := s] && PayloadsKept(old(mem), mem, ck)
    {
      hide Loose, Held, BinsReady, Fresh, SmallSize, LargeSize, Within, FreeIn, PayloadsKept;
      Insertable(mem, smallmap, treemap, bins, ck, segs, leastAddr, p);
      LooseBins(mem, smallmap, treemap, bins, ck, segs, leastAddr);
      if s < 256 {
        InsertSmallChunk(p, s);
      } else {
        InsertLargeChunk(p, s);
      }
      BinStep(old(mem), mem, old(smallmap), old(treemap), old(bins), smallmap, treemap, bins, ck, leastAddr, bins.sz);
      LooseAgain(old(mem), mem, old(smallmap), old(treemap), old(bins), smallmap, treemap, bins, ck, segs, leastAddr);
    }

    /** unlink_chunk */
    method UnlinkChunk(p: int, s: int)
      requires Holding() && p in bins.sz && bins.sz[p] == s
      modifies this`mem, this`smallmap, this`treemap, this`bins
      ensures Holding() && (old(Phase()) ==> Phase())
      ensures bins.sz == old(bins.sz) - {p} && PayloadsKept(old(mem), mem, ck) && IdleKept(old(mem), mem, ck)
    {
      hide Loose, Held, BinsReady, Within, FreeIn, PayloadsKept, IdleKept, BinsOk;
      Unlinkable(mem, smallmap, treemap, bins, ck, leastAddr, p);
      if s < 256 {
        UnlinkSmallChunk(p, s);
      } else {
        UnlinkLargeChunk(p);
      }
      BinStep(old(mem), mem, old(smallmap), old(treemap), old(bins), smallmap, treemap, bins, ck, leastAddr,
              old(bins.sz));
      if old(Phase()) {
        LooseAgain(old(mem), mem, old(smallmap), old(treemap), old(bins), smallmap, treemap, bins, ck, segs, leastAddr);
      }
    }

    /** unlink_large_chunk, on a chunk of the heap */
    method UnlinkTreeChunk(p: int)
      requires Phase() && p in bins.trie.loc
      modifies this`mem, this`treemap, this`bins
      ensures Phase() && bins.sz == old(bins.sz) - {p} && PayloadsKept(old(mem), mem, ck)
    {
      hide Loose, Held, BinsReady, Within, FreeIn, PayloadsKept, IdleKept, BinsOk;
      LooseBins(mem, smallmap, treemap, bins, ck, segs, leastAddr);
      UnlinkLargeChunk(p);
      FewerFree(ck, old(bins.sz), p);
      BinStep(old(mem), mem, smallmap, old(treemap), old(bins), smallmap, treemap, bins, ck, leastAddr, old(bins.sz));
      LooseAgain(old(mem), mem, smallmap, old(treemap), old(bins), smallmap, treemap, bins, ck, segs, leastAddr);
    }

    /** replace_dv */
    method ReplaceDv(p: int, s: int)
      requires Phase() && dvsize < 256
      requires (dvsize != 0 ==> dv in ck && ck[dv] == Chunk(dvsize, Free, 0) && dv !in bins.sz)
      modifies this`mem, this`smallmap, this`treemap, this`bins, this`dv, this`dvsize
      ensures Phase() && dv == p && dvsize == s && PayloadsKept(old(mem), mem, ck)
      ensures bins.sz == if old(dvsize) != 0 then old(bins.sz)[old(dv) := old(dvsize)] else old(bins.sz)
    {
      hide Loose, Held, BinsReady, Fresh, SmallSize, LargeSize, Within, FreeIn;
      var dvs := dvsize;
      if dvs != 0 {
        var d := dv;
        Insertable(mem, smallmap, treemap, bins, ck, segs, leastAddr, d);
        LooseBins(mem, smallmap, treemap, bins, ck, segs, leastAddr);
        InsertSmallChunk(d, dvs);
        BinStep(old(mem), mem, old(smallmap), old(treemap), old(bins), smallmap, treemap, bins, ck, leastAddr, bins.sz);
        LooseAgain(old(mem), mem, old(smallmap), old(treemap), old(bins), smallmap, treemap, bins, ck, segs, leastAddr);
      }
      dvsize := s;
      dv := p;
    }

    // ----- malloc

    /** tmalloc_large: best fit, unless the designated victim fits at least as well. */
    method TmallocLarge(nb: int) returns (r: int)
      requires Valid() && LargeSize(nb)
      modifies this`mem, this`smallmap, this`treemap, this`bins, this`ck
      ensures Valid()
      ensures r == 0 ==> unchanged(this)
      ensures r == 0 <==> forall y | y in old(ck) && old(ck[y].kind) == Free && y != dv && old(ck[y].size) >= nb ::
                            old(ck[y].size) - nb >= Sub64(dvsize, nb)
      ensures r != 0 ==> Granted(old(mem), old(ck), mem, ck, r, nb)
      ensures r != 0 ==> r - 16 in old(ck) && old(ck[r - 16].kind) == Free && old(ck[r - 16].size) >= nb
      ensures r != 0 ==> forall y | y in old(ck) && old(ck[y].kind) == Free && y != dv && old(ck[y].size) >= nb ::
                            old(ck[y].size) >= old(ck[r - 16].size)
      ensures r != 0 ==> r - 16 != dv
      ensures r != 0 ==> Carved(old(ck), dv, dvsize, top, topsize, nb, r - 16, ck, dv, dvsize, top, topsize)
    {
      hide Carved, Loose, Held, BinsReady, Within, FreeIn, PayloadsKept, Settled, Granted, Best, NoneTighter, Take,
           Split,
           SetInuseAndPinuse, SetSizeOfFree, SetSizeOfInuse;
      LooseBins(mem, smallmap, treemap, bins, ck, segs, leastAddr);
      var v, rsize := FindBestLarge(nb);
      Searched(mem, smallmap, treemap, bins, ck, segs, leastAddr, dv, dvsize, top, topsize, nb, v, rsize);
      r := 0;
      if v != 0 && rsize < Sub64(dvsize, nb) {
        ghost var m0, b0, c0 := mem, bins, ck;
        if v >= leastAddr && v < v + nb {
          UnlinkTreeChunk(v);
          ghost var m1, b1 := mem, bins;
          if rsize < MIN_CHUNK_SIZE {
            WholeStep(m1, smallmap, treemap, b0, b1, c0, segs, leastAddr, dv, dvsize, top, topsize, v, nb);
            CarvedWhole(c0, dv, dvsize, top, topsize, nb, v);
            mem := SetInuseAndPinuse(mem, v, rsize + nb);
            ck := Take(c0, v);
            GrantedAfter(m0, m1, c0, mem, ck, v + 16, nb);
          } else {
            FrontStep(m1, smallmap, treemap, b0, b1, c0, segs, leastAddr, dv, dvsize, top, topsize, v, nb);
            CarvedFront(c0, dv, dvsize, top, topsize, nb, v, rsize);
            mem := SetSizeOfInuse(mem, v, nb);
            mem := SetSizeOfFree(mem, v + nb, rsize);
            ck := Split(c0, v, nb);
            GrantedAfter(m0, m1, c0, mem, ck, v + 16, nb);
            ghost var m2 := mem;
            InsertChunk(v + nb, rsize);
            GrantedBefore(m0, c0, m2, mem, ck, v + 16, nb);
          }
          r := v + 16;
        } else {
          assert false;  // CORRUPTION_ERROR_ACTION
        }
      }
    }

    /** tmalloc_small: the smallest tree chunk. */
    method TmallocSmall(nb: int) returns (r: int)
      requires Valid() && SmallSize(nb) && treemap != 0 && dvsize < nb
      modifies this`mem, this`smallmap, this`treemap, this`bins, this`ck, this`dv, this`dvsize
      ensures Valid()
      ensures r != 0 && Granted(old(mem), old(ck), mem, ck, r, nb)
      ensures r - 16 in old(ck) && old(ck[r - 16].kind) == Free && old(ck[r - 16].size) >= 256
      ensures forall y | y in old(ck) && old(ck[y].kind) == Free && y != old(dv) && old(ck[y].size) >= 256 ::
                            old(ck[y].size) >= old(ck[r - 16].size)
      ensures Carved(old(ck), old(dv), old(dvsize), top, topsize, nb, r - 16, ck, dv, dvsize, top, topsize)
    {
      hide Carved, Loose, Held, BinsReady, Within, FreeIn, PayloadsKept, Settled, Granted, Best, NoneTighter, Take,
           Split,
           SetInuseAndPinuse, SetSizeOfFree, SetSizeOfInuse;
      LooseBins(mem, smallmap, treemap, bins, ck, segs, leastAddr);
      var v, rsize := FindBestSmall(nb);
      Searched(mem, smallmap, treemap, bins, ck, segs, leastAddr, dv, dvsize, top, topsize, nb, v, rsize);
      TreeSize(mem, smallmap, treemap, bins, ck, segs, leastAddr, v);
      ghost var m0, b0, c0, dv0, dvsize0 := mem, bins, ck, dv, dvsize;
      if v >= leastAddr && v < v + nb {
        UnlinkTreeChunk(v);
        ghost var m1, b1 := mem, bins;
        if rsize < MIN_CHUNK_SIZE {
          WholeStep(m1, smallmap, treemap, b0, b1, c0, segs, leastAddr, dv, dvsize, top, topsize, v, nb);
          CarvedWhole(c0, dv, dvsize, top, topsize, nb, v);
          mem := SetInuseAndPinuse(mem, v, rsize + nb);
          ck := Take(c0, v);
          GrantedAfter(m0, m1, c0, mem, ck, v + 16, nb);
        } else {
          FrontStep(m1, smallmap, treemap, b0, b1, c0, segs, leastAddr, dv, dvsize, top, topsize, v, nb);
          CarvedFront(c0, dv, dvsize, top, topsize, nb, v, rsize);
          mem := SetSizeOfInuse(mem, v, nb);
          mem := SetSizeOfFree(mem, v + nb, rsize);
          ck := Split(c0, v, nb);
          GrantedAfter(m0, m1, c0, mem, ck, v + 16, nb);
          ghost var m2 := mem;
          ReplaceDv(v + nb, rsize);
          GrantedBefore(m0, c0, m2, mem, ck, v + 16, nb);
        }
        r := v + 16;
      } else {
        assert false;  // CORRUPTION_ERROR_ACTION
      }
    }

    // ----- free

    /** Consolidating backward: the run begins at `p`, and has `psize` bytes so far; `done` if the
        designated victim absorbed the block. */
    method MergeBack(p0: int, s0: int) returns (p: int, psize: int, done: bool)
      requires Valid() && p0 in ck && ck[p0].kind == Live && ck[p0].size == s0
      modifies this`mem, this`smallmap, this`treemap, this`bins, this`ck, this`dvsize
      ensures RunBase(old(ck), p0) in old(ck) && p == RunBase(old(ck), p0)
      ensures done ==>
        Valid() && ck == Freed(old(ck), p0) && LiveOf(ck) == LiveOf(old(ck)) - {p0} && BlocksKept(old(mem), mem, LiveOf(ck))
      ensures done ==> p in ck && ck[p].kind == Free && MergesDv(old(ck), p0, dv) && dv == p
      ensures !done ==> ck == old(ck) && dvsize == old(dvsize) && psize == p0 + s0 - p
      ensures !done && p == dv ==> !CurInUse(Rd(mem, p0 + s0 + HEAD))
      ensures !done ==>
        HalfMerged(old(mem), mem, smallmap, treemap, bins, ck, segs, leastAddr, p0, p, old(bins.sz), dv, dvsize, top,
                   topsize)
    {
      hide Loose, Held, PayloadsKept, IdleKept, Settled, Freed, LiveOf, BlocksKept, RunBase, SetFree, Merging;
      ghost var m0, z0, c0, e0 := mem, bins.sz, ck, dvsize;
      p, psize, done := p0, s0, false;
      var next := p + psize;
      FreeStart(mem, smallmap, treemap, bins, ck, segs, leastAddr, p0, dv, dvsize, top, topsize);
      if !PrevInUse(Rd(mem, p + HEAD)) {
        var prevsize := Rd(mem, p);
        if !CurInUse(Rd(mem, p + HEAD)) {
          assert false;  // is_mmapped
        }
        var prev := p - prevsize;
        psize := psize + prevsize;
        p := prev;
        if prev >= leastAddr {
          if p != dv {
            UnlinkChunk(p, prevsize);
          } else if CurInUse(Rd(mem, next + HEAD)) && PrevInUse(Rd(mem, next + HEAD)) {
            dvsize := psize;
            mem := SetFree(mem, p, psize, next);
            EndUsed(m0, m0, mem, smallmap, treemap, bins, c0, segs, leastAddr, p0, p, next, psize, z0, dv, e0, top,
                    topsize);
            ck := Freed(c0, p0);
            done := true;
          }
        } else {
          assert false;  // CORRUPTION_ERROR_ACTION
        }
      }
    }

    /** Consolidating forward: `topped` if the run became the top, `binned` if it went into a bin. */
    method MergeForward(ghost l: Mem, ghost z0: map<int, int>, ghost p0: int, p: int, s: int,
                        next: int) returns (topped: bool, binned: bool, psize: int)
      requires HalfMerged(l, mem, smallmap, treemap, bins, ck, segs, leastAddr, p0, p, z0, dv, dvsize, top, topsize)
      requires p0 in ck && next == p0 + ck[p0].size && s == next - p && (p == dv ==> !CurInUse(Rd(mem, next + HEAD)))
      modifies this`mem, this`smallmap, this`treemap, this`bins, this`ck, this`dv, this`dvsize, this`top, this`topsize
      ensures Valid() && RunBase(old(ck), p0) in old(ck) && ck == Freed(old(ck), p0)
      ensures LiveOf(ck) == LiveOf(old(ck)) - {p0} && BlocksKept(l, mem, LiveOf(ck))
      ensures p in ck && (topped ==> top == p && topsize == ck[p].size) && (!topped ==> top == old(top))
      ensures ck[p].kind == (if topped then Top else Free) && (!topped ==> topsize == old(topsize))
      ensures binned <==> !topped && !MergesDv(old(ck), p0, old(dv))
      ensures binned ==> ck[p].size == psize
      ensures dv == if !MergesDv(old(ck), p0, old(dv)) then old(dv) else if topped then 0 else p
    {
      hide Loose, Held, PayloadsKept, IdleKept, Settled, Freed, LiveOf, BlocksKept, RunBase, SetFree, SetSizeOfFree,
           Merging, HalfMerged;
      ghost var m1, c0, d0, e0, t0, u0 := mem, ck, dv, dvsize, top, topsize;
      topped, binned, psize := false, false, s;
      FreeNext(l, mem, smallmap, treemap, bins, ck, segs, leastAddr, p0, p, z0, dv, dvsize, top, topsize);
      if next >= leastAddr {
        if !CurInUse(Rd(mem, next + HEAD)) {
          if next == top {
            topsize := topsize + psize;
            top := p;
            mem := mem[p + HEAD := topsize + PINUSE_BIT];
            if p == dv {
              dv := 0;
              dvsize := 0;
            }
            EndTop(l, m1, mem, smallmap, treemap, bins, c0, segs, leastAddr, p0, p, next, topsize, z0, d0, e0, t0, u0);
            ck := Freed(c0, p0);
            topped := true;
            return;
          } else if next == dv {
            dvsize := dvsize + psize;
            dv := p;
            mem := SetSizeOfFree(mem, p, dvsize);
            EndFree(l, m1, mem, smallmap, treemap, bins, c0, segs, leastAddr, p0, p, next, dvsize, z0, d0, e0, t0, u0);
            ck := Freed(c0, p0);
            return;
          } else {
            var nsize := ChunkSize(Rd(mem, next + HEAD));
            psize := psize + nsize;
            UnlinkChunk(next, nsize);
            NextUnlinked(l, m1, old(smallmap), old(treemap), old(bins), mem, smallmap, treemap, bins, ck, segs,
                         leastAddr, p0, p, z0, d0, e0, t0, u0);
            ghost var m2 := mem;
            mem := SetSizeOfFree(mem, p, psize);
            EndFree(l, m2, mem, smallmap, treemap, bins, c0, segs, leastAddr, p0, p, next, psize, z0, d0, e0, t0, u0);
            if p == dv {
              dvsize := psize;
              ck := Freed(c0, p0);
              return;
            }
          }
        } else {
          mem := SetFree(mem, p, psize, next);
          EndUsed(l, m1, mem, smallmap, treemap, bins, c0, segs, leastAddr, p0, p, next, psize, z0, d0, e0, t0, u0);
        }
        ck := Freed(c0, p0);
        ghost var m3 := mem;
        InsertChunk(p, psize);
        LaterBlocks(l, m3, mem, ck);
        binned := true;
      } else {
        assert false;  // CORRUPTION_ERROR_ACTION
      }
    }

    /** dispose_chunk */
    method DisposeChunk(p0: int, s0: int)
      requires Valid() && p0 in ck && ck[p0].kind == Live && ck[p0].size == s0
      modifies this`mem, this`smallmap, this`treemap, this`bins, this`ck, this`dv, this`dvsize, this`top, this`topsize
      ensures Valid() && RunBase(old(ck), p0) in old(ck) && ck == Freed(old(ck), p0)
      ensures LiveOf(ck) == LiveOf(old(ck)) - {p0} && BlocksKept(old(mem), mem, LiveOf(ck))
      ensures var q := RunBase(old(ck), p0);
        q in ck && dv == if !MergesDv(old(ck), p0, old(dv)) then old(dv) else if ck[q].kind == Top then 0 else q
    {
      hide Loose, Settled, Freed, LiveOf, BlocksKept, RunBase, HalfMerged, MergesDv;
      ghost var l, z0 := mem, bins.sz;
      var p, psize, done := MergeBack(p0, s0);
      if !done {
        var topped, binned, size := MergeForward(l, z0, p0, p, psize, p0 + s0);
      }
    }

    // ----- Memory from the system

    /** init_top */
    method InitTop(p0: int, psize0: int)
      requires p0 % 16 == 0
      modifies this`mem, this`top, this`topsize, this`trimCheck
      ensures top == p0 && topsize == psize0 && trimCheck == TRIM_THRESHOLD
      ensures mem == old(mem)[p0 + HEAD := psize0 + PINUSE_BIT][p0 + psize0 + HEAD := TOP_FOOT_SIZE]
    {
      var offset := AlignOffset(p0 + 16);
      var p, psize := p0 + offset, psize0 - offset;
      top := p;
      topsize := psize;
      mem := mem[p + HEAD := psize + PINUSE_BIT];
      mem := mem[p + psize + HEAD := TOP_FOOT_SIZE];
      trimCheck := TRIM_THRESHOLD;
    }

    /** init_bins */
    method InitBins()
      modifies this`mem
      ensures forall w {:trigger Rd(mem, w)} :: !SmallHeader(w) ==> Rd(mem, w) == Rd(old(mem), w)
      ensures forall i | 0 <= i < NBINS :: EmptyHeader(mem, i)
    {
      hide EmptyHeader;
      var i := 0;
      while i < NBINS
        invariant 0 <= i <= NBINS
        invariant forall w {:trigger Rd(mem, w)} :: !SmallHeader(w) ==> Rd(mem, w) == Rd(old(mem), w)
        invariant forall j | 0 <= j < i :: EmptyHeader(mem, j)
      {
        ghost var m := mem;
        var bin := SmallBinAt(i);
        mem := mem[bin + FD := bin];
        mem := mem[bin + BK := bin];
        forall j | 0 <= j <= i ensures EmptyHeader(mem, j) {
          BinLinked(m, mem, i, j);
        }
        forall w | !SmallHeader(w) ensures Rd(mem, w) == Rd(old(mem), w) {
          assert Rd(mem, w) == Rd(m, w);
        }
        i := i + 1;
      }
    }

    /** segment_holding, for an address in segment `k` */
    method SegmentHolding(addr: int, ghost k: nat) returns (sp: int)
      requires Phase() && k < |segs| && Holds(segs[k], addr)
      ensures sp == segs[k].rec
    {
      hide Loose, LayoutOk, SegList, Holds;
      Listed(mem, smallmap, treemap, bins, ck, segs, leastAddr);
      sp := SEG;
      ghost var i := 0;
      while true
        invariant 0 <= i <= k && sp == segs[i].rec
        decreases k - i
      {
        ListWords(mem, segs, i);
        OneHolder(ck, segs, addr, i, k);
        HoldsIs(segs[i], addr);
        if addr >= Rd(mem, sp) && addr < Rd(mem, sp) + Rd(mem, sp + SEG_SIZE) {
          return;
        }
        sp := Rd(mem, sp + SEG_NEXT);
        i := i + 1;
        if sp == 0 {
          assert false;
        }
      }
    }

    /** has_segment_link, for segment `k` */
    method HasSegmentLink(ss: int, ghost k: nat) returns (found: bool)
      requires Phase() && k < |segs| && ss == segs[k].rec
      ensures found <==> exists i | 0 <= i < |segs| :: Holds(segs[k], segs[i].rec)
    {
      hide Loose, LayoutOk, SegList, Holds;
      Listed(mem, smallmap, treemap, bins, ck, segs, leastAddr);
      ListWords(mem, segs, k);
      found := false;
      var sp := SEG;
      ghost var i := 0;
      while true
        invariant 0 <= i < |segs| && sp == segs[i].rec
        invariant forall j | 0 <= j < i :: !Holds(segs[k], segs[j].rec)
        decreases |segs| - i
      {
        ListWords(mem, segs, i);
        HoldsIs(segs[k], sp);
        if sp >= Rd(mem, ss) && sp < Rd(mem, ss) + Rd(mem, ss + SEG_SIZE) {
          return true;
        }
        sp := Rd(mem, sp + SEG_NEXT);
        i := i + 1;
        if sp == 0 {
          return;
        }
      }
    }

    /** Splitting the top: the front becomes a block. */
    method SplitTop(nb: int) returns (r: int)
      requires Valid() && MIN_CHUNK_SIZE <= nb < topsize && nb % 16 == 0
      modifies this`mem, this`ck, this`top, this`topsize
      ensures Valid() && r > 0 && Granted(old(mem), old(ck), mem, ck, r, nb)
      ensures r - 16 == old(top) && old(top) in old(ck) && old(ck[top].kind) == Top
      ensures Carved(old(ck), dv, dvsize, old(top), old(topsize), nb, r - 16, ck, dv, dvsize, top, topsize)
    {
      hide Loose, Settled, Granted, SetSizeOfInuse, CutTop, Carved;
      TopWhole(mem, smallmap, treemap, bins, ck, segs, leastAddr, dv, dvsize, top, topsize);
      CarvedTop(ck, dv, dvsize, top, topsize, nb);
      TopStep(mem, smallmap, treemap, bins, ck, segs, leastAddr, dv, dvsize, top, topsize, nb);
      ck := CutTop(ck, top, nb);
      topsize := topsize - nb;
      var p := top;
      top := p + nb;
      mem := mem[top + HEAD := topsize + PINUSE_BIT];
      mem := SetSizeOfInuse(mem, p, nb);
      r := p + 16;
      GrantedNonNull(old(mem), old(ck), mem, ck, r, nb);
    }

    /** First-time initialization, of a zeroed malloc_state. */
    method Initialize(tbase: int, tsize: int)
      requires Valid() && segs == [] && Mapped(segs, tbase, tsize) && tsize > TOP_FOOT_SIZE
      modifies this`mem, this`ck, this`segs, this`leastAddr, this`top, this`topsize, this`trimCheck, this`releaseChecks
      ensures Valid() && LiveOf(ck) == LiveOf(old(ck)) == map[] && segs == [Segment(tbase, tsize, SEG)]
      ensures topsize == tsize - TOP_FOOT_SIZE && top == tbase && trimCheck == TRIM_THRESHOLD
      ensures releaseChecks == MAX_RELEASE_CHECK_RATE
    {
      hide Loose, Settled, LayoutOk, Mapped, RegionOk, Outside, LiveOf, AddTop, Usable;
      NothingYet(bins.sz, ck, dv, dvsize, top, topsize);
      MappedUsable(segs, tbase, tsize);
      assert tbase % 16 == 0 && tsize % 16 == 0 by { UsableAligned(tbase, tsize); }
      ghost var l := leastAddr;
      if leastAddr == 0 || tbase < leastAddr {
        leastAddr := tbase;
      }
      mem := mem[SEG := tbase];
      mem := mem[SEG + SEG_SIZE := tsize];
      mem := mem[SEG + SEG_FLAGS := USE_MMAP_BIT];
      releaseChecks := MAX_RELEASE_CHECK_RATE;
      ghost var m1 := mem;
      InitBins();
      ghost var m2 := mem;
      InitTop(tbase, tsize - TOP_FOOT_SIZE);
      FirstWords(old(mem), m1, m2, mem, smallmap, treemap, bins, l, tbase, tsize, leastAddr);
      ck := AddTop(map[], tbase, tsize);
      segs := [Segment(tbase, tsize, SEG)];
    }

    /** The new region follows the newest segment. */
    method AppendRegion(tbase: int, tsize: int)
      requires Valid() && segs != [] && Mapped(segs, tbase, tsize) && tsize > TOP_FOOT_SIZE
      requires tbase == segs[0].base + segs[0].size
      modifies this`mem, this`ck, this`segs, this`top, this`topsize, this`trimCheck
      ensures Valid() && LiveOf(ck) == LiveOf(old(ck)) && BlocksKept(old(mem), mem, LiveOf(old(ck)))
      ensures topsize == old(topsize) + tsize && SegTotal(segs) == SegTotal(old(segs)) + tsize
      ensures segs == old(segs)[0 := Segment(old(segs[0].base), old(segs[0].size) + tsize, old(segs[0].rec))]
      ensures top == old(top) && trimCheck == TRIM_THRESHOLD
    {
      hide Loose, Settled, Mapped, LiveOf, BlocksKept, ResizeTop, SegTotal;
      AppendStep(mem, smallmap, treemap, bins, ck, segs, leastAddr, dv, dvsize, top, topsize, tbase, tsize);
      TotalUpdate(segs, 0, Segment(segs[0].base, segs[0].size + tsize, segs[0].rec));
      mem := mem[SEG + SEG_SIZE := Rd(mem, SEG + SEG_SIZE) + tsize];
      InitTop(top, topsize + tsize);
      ck := ResizeTop(ck, top, topsize);
      segs := segs[0 := Segment(segs[0].base, segs[0].size + tsize, segs[0].rec)];
    }

    /** The fenceposts of add_segment, from `tnext` to the end of the segment: at least two of them. */
    method Fence(tnext: int, oldEnd: int)
      requires tnext % 8 == 0 && oldEnd % 8 == 0 && tnext + 32 <= oldEnd
      modifies this`mem
      ensures Fenced(old(mem), mem, tnext, oldEnd)
    {
      var p, nfences := tnext, 0;
      while true
        invariant tnext <= p && p % 8 == 0 && p + HEAD < oldEnd
        invariant 8 * nfences == p - tnext && (nfences > 0 ==> Rd(mem, tnext + HEAD) == FENCEPOST_HEAD)
        invariant forall w {:trigger Rd(mem, w)} :: !(tnext + HEAD <= w < oldEnd) ==> Rd(mem, w) == Rd(old(mem), w)
        decreases oldEnd - p
      {
        ghost var m := mem;
        var nextp := p + 8;
        mem := mem[p + HEAD := FENCEPOST_HEAD];
        nfences := nfences + 1;
        forall w | !(tnext + HEAD <= w < oldEnd) ensures Rd(mem, w) == Rd(old(mem), w) {
          assert Rd(mem, w) == Rd(m, w);
        }
        if nextp + HEAD < oldEnd {
          p := nextp;
        } else {
          break;
        }
      }
      assert nfences >= 2;
    }

    /** The record for the new segment; the old one moves to the chunk `sp`. */
    method PushSegment(sp: int, tbase: int, tsize: int)
      modifies this`mem
      ensures mem == NewRecord(old(mem), sp, tbase, tsize)
    {
      var ss := sp + 16;
      mem := SetSizeOfInuse(mem, sp, RECORD_SIZE);
      mem := PushRecord(mem, ss);
      mem := mem[SEG := tbase];
      mem := mem[SEG + SEG_SIZE := tsize];
      mem := mem[SEG + SEG_FLAGS := USE_MMAP_BIT];
      mem := mem[SEG + SEG_NEXT := ss];
    }

    /** add_segment, up to and including the fenceposts: the record is in chunk `csp`. */
    method ReplaceTop(tbase: int, tsize: int) returns (csp: int)
      requires Valid() && segs != [] && Mapped(segs, tbase, tsize) && tsize > TOP_FOOT_SIZE
      modifies this`mem, this`top, this`topsize, this`trimCheck
      ensures AddReady(segs, ck, old(top), tbase, tsize) && csp == RecordAt(ck, old(top))
      ensures top == tbase && topsize == tsize - TOP_FOOT_SIZE && trimCheck == TRIM_THRESHOLD
      ensures Fenced(AddWrites(old(mem), csp, tbase, tsize), mem, csp + RECORD_SIZE, segs[0].base + segs[0].size)
    {
      hide Loose, Settled, Mapped, Fenced, RecordAt, AddReady, Holds, RecordSpot, NewRecord;
      AddStart(mem, smallmap, treemap, bins, ck, segs, leastAddr, dv, dvsize, top, topsize, tbase, tsize);
      var oldTop := top;
      var oldsp := SegmentHolding(oldTop, 0);
      var oldEnd := Rd(mem, oldsp) + Rd(mem, oldsp + SEG_SIZE);
      var asp := RecordSpot(oldEnd);
      csp := if asp < oldTop + MIN_CHUNK_SIZE then oldTop else asp;
      InitTop(tbase, tsize - TOP_FOOT_SIZE);
      PushSegment(csp, tbase, tsize);
      Fence(csp + RECORD_SIZE, oldEnd);
    }

    /** add_segment */
    method AddSegment(tbase: int, tsize: int)
      requires Valid() && segs != [] && Mapped(segs, tbase, tsize) && tsize > TOP_FOOT_SIZE && leastAddr <= tbase
      modifies this`mem, this`smallmap, this`treemap, this`bins, this`ck, this`segs, this`top, this`topsize,
               this`trimCheck
      ensures Valid() && LiveOf(ck) == LiveOf(old(ck)) && BlocksKept(old(mem), mem, LiveOf(old(ck)))
      ensures topsize == tsize - TOP_FOOT_SIZE && SegTotal(segs) == SegTotal(old(segs)) + tsize
      ensures |segs| == |old(segs)| + 1 && segs[0] == Segment(tbase, tsize, SEG)
      ensures old(top) in old(ck) && segs == Pushed(old(ck), old(segs), old(top), tbase, tsize)
      ensures top == tbase && trimCheck == TRIM_THRESHOLD
    {
      hide Loose, Settled, Mapped, LiveOf, BlocksKept, SegTotal, AddedLayout, Pushed, Fenced, SetFree, RecordAt,
           PayloadsKept, AddWrites, AddPlaces;
      ghost var m0, c0, g0, t0, u0 := mem, ck, segs, top, topsize;
      var oldTop := top;
      var csp := ReplaceTop(tbase, tsize);
      PushedFacts(c0, g0, t0, tbase, tsize);
      ghost var n := if csp != oldTop then SetFree(mem, oldTop, csp - oldTop, csp) else mem;
      AddStep(m0, mem, n, smallmap, treemap, bins, c0, g0, leastAddr, dv, dvsize, t0, u0, tbase, tsize);
      ck, segs := AddedLayout(c0, t0, tbase, tsize), Pushed(c0, g0, t0, tbase, tsize);
      if csp != oldTop {
        var psize := csp - oldTop;
        mem := SetFree(mem, oldTop, psize, csp);
        InsertChunk(oldTop, psize);
      }
      NewBlocks(m0, n, mem, c0, ck);
    }

    /** The last case of prepend_alloc: the rest of the region, with the chunk that was first in the segment
        if that is free, goes into a bin. */
    method PrependBin(q: int, qsize0: int, oldfirst0: int, ghost l: Mem, ghost k: nat, ghost base: int,
                      ghost size: int, ghost nb: int)
      requires Fronted(l, mem, smallmap, treemap, bins, ck, segs, leastAddr, k, base, size, nb, bins.sz, dv, dvsize,
                       top, topsize)
      requires q == base + nb && qsize0 == size - nb && oldfirst0 == base + size && oldfirst0 != top && oldfirst0 != dv
      modifies this`mem, this`smallmap, this`treemap, this`bins, this`ck, this`segs
      ensures Valid() && Granted(l, old(ck), mem, ck, base + 16, nb)
      ensures k < |old(segs)| && segs == Rebound(old(segs), k, base, size + old(segs[k].size))
    {
      hide Loose, Held, Settled, PayloadsKept, IdleKept, RestLayout, SetFree, SetSizeOfFree, Granted, Fronted, Rebound;
      ghost var c0, g0, z0, d0, e0, t0, u0 := ck, segs, bins.sz, dv, dvsize, top, topsize;
      var qsize, oldfirst := qsize0, oldfirst0;
      FrontedRead(l, mem, smallmap, treemap, bins, ck, segs, leastAddr, k, base, size, nb, dv, dvsize, top, topsize);
      if !IsInUse(Rd(mem, oldfirst + HEAD)) {
        var nsize := ChunkSize(Rd(mem, oldfirst + HEAD));
        ghost var m, s, t, b := mem, smallmap, treemap, bins;
        UnlinkChunk(oldfirst, nsize);
        FrontedLater(l, m, s, t, b, mem, smallmap, treemap, bins, ck, segs, leastAddr, k, base, size, nb, z0, dv,
                     dvsize, top, topsize);
        oldfirst := oldfirst + nsize;
        qsize := qsize + nsize;
      }
      ghost var m := mem;
      mem := SetFree(mem, q, qsize, oldfirst);
      RestBin(l, m, mem, smallmap, treemap, bins, c0, g0, leastAddr, k, base, size, nb, z0, d0, e0, t0, u0, qsize);
      ck, segs := RestLayout(c0, base, size, nb), Rebound(g0, k, base, size + g0[k].size);
      ghost var n := mem;
      InsertChunk(q, qsize);
      GrantedBefore(l, c0, n, mem, ck, base + 16, nb);
    }

    /** prepend_alloc, once the block is marked: consolidating the rest of the region with the chunk that
        was first in the segment. */
    method PrependRest(q: int, qsize: int, oldfirst: int, ghost l: Mem, ghost k: nat, ghost base: int, ghost size: int,
                       ghost nb: int)
      requires Fronted(l, mem, smallmap, treemap, bins, ck, segs, leastAddr, k, base, size, nb, bins.sz, dv, dvsize,
                       top, topsize)
      requires q == base + nb && qsize == size - nb && oldfirst == base + size
      modifies this`mem, this`smallmap, this`treemap, this`bins, this`ck, this`segs, this`dv, this`dvsize, this`top,
               this`topsize
      ensures Valid() && Granted(l, old(ck), mem, ck, base + 16, nb)
      ensures k < |old(segs)| && segs == Rebound(old(segs), k, base, size + old(segs[k].size))
    {
      hide Loose, Held, Settled, PayloadsKept, IdleKept, RestLayout, SetFree, SetSizeOfFree, Granted, Fronted, Rebound;
      ghost var c0, g0, z0, d0, e0, t0, u0 := ck, segs, bins.sz, dv, dvsize, top, topsize;
      FrontedRead(l, mem, smallmap, treemap, bins, ck, segs, leastAddr, k, base, size, nb, dv, dvsize, top, topsize);
      if oldfirst == top {
        topsize := topsize + qsize;
        top := q;
        ghost var m := mem;
        mem := mem[q + HEAD := topsize + PINUSE_BIT];
        RestTop(l, m, mem, smallmap, treemap, bins, c0, g0, leastAddr, k, base, size, nb, z0, d0, e0, t0, u0, topsize);
        ck, segs := RestLayout(c0, base, size, nb), Rebound(g0, k, base, size + g0[k].size);
      } else if oldfirst == dv {
        dvsize := dvsize + qsize;
        dv := q;
        ghost var m := mem;
        mem := SetSizeOfFree(mem, q, dvsize);
        RestDv(l, m, mem, smallmap, treemap, bins, c0, g0, leastAddr, k, base, size, nb, z0, d0, e0, t0, u0, dvsize);
        ck, segs := RestLayout(c0, base, size, nb), Rebound(g0, k, base, size + g0[k].size);
      } else {
        PrependBin(q, qsize, oldfirst, l, k, base, size, nb);
      }
    }

    /** Extending the segment with record `sp` downwards, and prepend_alloc. */
    method PrependAlloc(sp: int, tbase: int, tsize: int, nb: int, ghost k: nat) returns (r: int)
      requires Valid() && CanFront(segs, k, tbase, tsize, nb) && sp == segs[k].rec && RegionOk(tbase, tsize)
      requires leastAddr <= tbase
      modifies this`mem, this`smallmap, this`treemap, this`bins, this`ck, this`segs, this`dv, this`dvsize, this`top,
               this`topsize
      ensures Valid() && r > 0 && Granted(old(mem), old(ck), mem, ck, r, nb)
      ensures segs == Rebound(old(segs), k, tbase, tsize + old(segs[k].size)) && r - 16 == tbase
    {
      hide Loose, Held, LayoutOk, Settled, LiveOf, BlocksKept, RegionOk, Usable, Outside, SetSizeOfInuse, Granted,
           SegList, Idle, Regions, Rebound;
      FrontBegin(mem, smallmap, treemap, bins, ck, segs, leastAddr, k, tbase, tsize, nb, dv, dvsize, top, topsize);
      ghost var l := mem;
      var oldbase := Rd(mem, sp);
      mem := mem[sp := tbase];
      mem := mem[sp + SEG_SIZE := tsize + Rd(mem, sp + SEG_SIZE)];
      var p, oldfirst := tbase + AlignOffset(tbase + 16), oldbase + AlignOffset(oldbase + 16);
      var psize := oldfirst - p;
      var q, qsize := p + nb, psize - nb;
      mem := SetSizeOfInuse(mem, p, nb);
      PrependRest(q, qsize, oldfirst, l, k, tbase, tsize, nb);
      r := p + 16;
    }

    /** The first segment of the list that ends at `addr`, or null. */
    method SegmentEndingAt(addr: int) returns (sp: int, ghost k: nat)
      requires Phase() && segs != []
      ensures k <= |segs| && sp == (if k < |segs| then segs[k].rec else 0)
      ensures k < |segs| ==> sp > 0 && segs[k].base + segs[k].size == addr
      ensures k == |segs| ==> forall i | 0 <= i < |segs| :: segs[i].base + segs[i].size != addr
    {
      hide Loose, LayoutOk, SegList;
      Listed(mem, smallmap, treemap, bins, ck, segs, leastAddr);
      sp, k := SEG, 0;
      while true
        invariant k <= |segs| && sp == (if k < |segs| then segs[k].rec else 0)
        invariant forall i | 0 <= i < k :: segs[i].base + segs[i].size != addr
        decreases |segs| - k
      {
        if sp == 0 {
          return;
        }
        ListWords(mem, segs, k);
        if addr == Rd(mem, sp) + Rd(mem, sp + SEG_SIZE) {
          return;
        }
        sp := Rd(mem, sp + SEG_NEXT);
        k := k + 1;
      }
    }

    /** The first segment of the list that begins at `addr`, or null. */
    method SegmentStartingAt(addr: int) returns (sp: int, ghost k: nat)
      requires Phase() && segs != []
      ensures k <= |segs| && sp == (if k < |segs| then segs[k].rec else 0)
      ensures k < |segs| ==> sp > 0 && segs[k].base == addr
      ensures k == |segs| ==> forall i | 0 <= i < |segs| :: segs[i].base != addr
    {
      hide Loose, LayoutOk, SegList;
      Listed(mem, smallmap, treemap, bins, ck, segs, leastAddr);
      sp, k := SEG, 0;
      while true
        invariant k <= |segs| && sp == (if k < |segs| then segs[k].rec else 0)
        invariant forall i | 0 <= i < k :: segs[i].base != addr
        decreases |segs| - k
      {
        if sp == 0 {
          return;
        }
        ListWords(mem, segs, k);
        if Rd(mem, sp) == addr {
          return;
        }
        sp := Rd(mem, sp + SEG_NEXT);
        k := k + 1;
      }
    }

    /** sys_alloc's third case: the region follows no usable segment; it is put in front of one, or becomes one. */
    method AddRegion(tbase: int, tsize: int, nb: int) returns (r: int)
      requires Valid() && segs != [] && Mapped(segs, tbase, tsize) && tsize == AllocSize(nb) && tsize > nb
      requires MIN_CHUNK_SIZE <= nb < W64 && nb % 16 == 0 && tbase != segs[0].base + segs[0].size
      modifies this`mem, this`smallmap, this`treemap, this`bins, this`ck, this`segs, this`leastAddr, this`dv,
               this`dvsize, this`top, this`topsize, this`trimCheck
      ensures Valid() && SegTotal(segs) == SegTotal(old(segs)) + tsize
      ensures r != 0 ==> Granted(old(mem), old(ck), mem, ck, r, nb)
      ensures r == 0 ==>
        topsize == tsize - TOP_FOOT_SIZE && LiveOf(ck) == LiveOf(old(ck)) && BlocksKept(old(mem), mem, LiveOf(old(ck)))
      ensures Joined(old(ck), old(segs), old(top), tbase, tsize, segs, tbase)
      ensures if r != 0 then r - 16 == tbase && trimCheck == old(trimCheck)
        else top == tbase && trimCheck == TRIM_THRESHOLD
      ensures r != 0 <==> IsFront(old(segs), tbase, tsize)
    {
      hide Joined, Pushed, NoneStarts, Loose, Settled, Mapped, LiveOf, BlocksKept, SegTotal, Granted, Rebound,
           AllocSize, CanFront, RegionOk;
      RoomEnough(nb);
      r := 0;
      if tbase < leastAddr {
        LowerLeast(mem, smallmap, treemap, bins, ck, segs, leastAddr, tbase);
        leastAddr := tbase;
      }
      ghost var k: nat;
      var sp: int;
      sp, k := SegmentStartingAt(tbase + tsize);
      if sp != 0 {
        FrontAllowed(mem, smallmap, treemap, bins, ck, segs, leastAddr, k, tbase, tsize, nb);
        if Rd(mem, sp + SEG_FLAGS) == USE_MMAP_BIT {
          r := PrependAlloc(sp, tbase, tsize, nb, k);
          FrontIs(old(segs), tbase, tsize, k);
          FrontJoined(old(ck), old(segs), old(top), tbase, tsize, segs, k);
          return;
        }
        assert false;
      }
      assert NoneStarts(segs, tbase + tsize) by { NoneStartsAt(segs, tbase + tsize); }
      AddSegment(tbase, tsize);
      PushJoined(old(ck), old(segs), old(top), tbase, tsize);
    }

    /** sys_alloc, when the heap has segments already: `r` is not null if the block came with the region. */
    method ExtendHeap(tbase: int, tsize: int, nb: int) returns (r: int)
      requires Valid() && segs != [] && Mapped(segs, tbase, tsize) && tsize == AllocSize(nb) && tsize > nb
      requires MIN_CHUNK_SIZE <= nb < W64 && nb % 16 == 0
      modifies this`mem, this`smallmap, this`treemap, this`bins, this`ck, this`segs, this`leastAddr, this`dv,
               this`dvsize, this`top, this`topsize, this`trimCheck
      ensures Valid() && SegTotal(segs) == SegTotal(old(segs)) + tsize
      ensures r != 0 ==> Granted(old(mem), old(ck), mem, ck, r, nb)
      ensures r == 0 ==> topsize > nb && LiveOf(ck) == LiveOf(old(ck)) && BlocksKept(old(mem), mem, LiveOf(old(ck)))
      ensures Joined(old(ck), old(segs), old(top), tbase, tsize, segs, if r != 0 then r - 16 else top)
      ensures trimCheck == if r != 0 then old(trimCheck) else TRIM_THRESHOLD
      ensures r != 0 <==> IsFront(old(segs), tbase, tsize)
    {
      hide Joined, Loose, Settled, Mapped, LiveOf, BlocksKept, SegTotal, Granted, AllocSize;
      RoomEnough(nb);
      r := 0;
      ghost var k: nat;
      var sp: int;
      sp, k := SegmentEndingAt(tbase);
      ExtendReads(mem, smallmap, treemap, bins, ck, segs, leastAddr, dv, dvsize, top, topsize, k);
      if 0 < k < |segs| { EndsOnce(mem, smallmap, treemap, bins, ck, segs, leastAddr, k); }
      if sp != 0 && Rd(mem, sp + SEG_FLAGS) == USE_MMAP_BIT && top >= Rd(mem, sp) &&
        top < Rd(mem, sp) + Rd(mem, sp + SEG_SIZE) {
        AppendRegion(tbase, tsize);
        OtherJoined(old(ck), old(segs), old(top), tbase, tsize);
      } else {
        r := AddRegion(tbase, tsize, nb);
      }
    }

    /** sys_alloc, with the region that the system has handed out. */
    method UseRegion(tbase: int, tsize: int, nb: int) returns (r: int)
      requires Valid() && Mapped(segs, tbase, tsize) && tsize == AllocSize(nb) && tsize > nb
      requires MIN_CHUNK_SIZE <= nb < W64 && nb % 16 == 0
      modifies this`mem, this`smallmap, this`treemap, this`bins, this`ck, this`segs, this`leastAddr, this`dv,
               this`dvsize, this`top, this`topsize,
               this`trimCheck, this`releaseChecks
      ensures Valid() && SegTotal(segs) == SegTotal(old(segs)) + tsize
      ensures r != 0 && Granted(old(mem), old(ck), mem, ck, r, nb)
      ensures Joined(old(ck), old(segs), old(top), tbase, tsize, segs, r - 16)
      ensures trimCheck == if IsFront(old(segs), tbase, tsize) then old(trimCheck) else TRIM_THRESHOLD
      ensures releaseChecks == if old(segs) == [] then MAX_RELEASE_CHECK_RATE else old(releaseChecks)
    {
      hide Joined, IsFront, Loose, Settled, Mapped, LiveOf, BlocksKept, SegTotal, Granted, AllocSize;
      RoomLeft(nb);
      SystemReady(mem, smallmap, treemap, bins, ck, segs, leastAddr, dv, dvsize, top, topsize);
      if top == 0 {
        Initialize(tbase, tsize);
        NoBlocks(old(mem), mem);
        OneTotal(segs, tsize);
        OtherJoined(old(ck), old(segs), old(top), tbase, tsize);
      } else {
        r := ExtendHeap(tbase, tsize, nb);
        if r != 0 {
          return;
        }
      }
      if nb < topsize {
        ghost var m, c := mem, ck;
        r := SplitTop(nb);
        GrantedLate(old(mem), old(ck), m, c, mem, ck, r, nb);
      } else {
        assert false;
      }
    }

    /** A request that sys_alloc turns down before it asks the system. */
    ghost predicate TurnedDown(nb: int)
      reads this`footprint, this`footprintLimit
    {
      || AllocSize(nb) <= nb
      || (footprintLimit != 0 && footprint + AllocSize(nb) > footprintLimit)
    }

    /** sys_alloc; `mp` is the answer to the one request it makes of the system. */
    method SysAlloc(nb: int, mp: int) returns (r: int)
      requires Valid() && Accounted() && MIN_CHUNK_SIZE <= nb < W64 && (nb % 16 == 0 || nb == W64 - 1)
      requires mp != CMFAIL && AllocSize(nb) > nb ==> Mapped(segs, mp, AllocSize(nb))
      requires 0 <= footprintLimit < W64
      modifies this`mem, this`smallmap, this`treemap, this`bins, this`ck, this`segs, this`leastAddr, this`dv,
               this`dvsize, this`top, this`topsize,
               this`trimCheck, this`releaseChecks, this`footprint, this`maxFootprint
      ensures Valid() && Accounted()
      ensures r == 0 <==> old(TurnedDown(nb)) || mp == CMFAIL
      ensures r == 0 ==> unchanged(this)
      ensures r != 0 ==> Granted(old(mem), old(ck), mem, ck, r, nb) && footprint == old(footprint) + AllocSize(nb)
      ensures r != 0 && footprintLimit != 0 ==> footprint <= footprintLimit
      ensures r != 0 ==> Joined(old(ck), old(segs), old(top), mp, AllocSize(nb), segs, r - 16)
      ensures r != 0 ==> trimCheck == if IsFront(old(segs), mp, AllocSize(nb)) then old(trimCheck) else TRIM_THRESHOLD
      ensures r != 0 ==> maxFootprint == if footprint > old(maxFootprint) then footprint else old(maxFootprint)
    {
      hide Joined, IsFront, Loose, Settled, Mapped, LiveOf, BlocksKept, SegTotal, Granted, AllocSize;
      RoomEnough(nb);
      r := 0;
      var asize := AllocSize(nb);
      if asize <= nb {
        return;
      }
      FootprintFits(mem, smallmap, treemap, bins, ck, segs, leastAddr, asize);
      if footprintLimit != 0 {
        var fp := (footprint + asize) % W64;
        if fp <= footprint || fp > footprintLimit {
          return;
        }
      }
      if mp != CMFAIL {
        var tbase, tsize := mp, asize;
        footprint := footprint + tsize;
        if footprint > maxFootprint {
          maxFootprint := footprint;
        }
        r := UseRegion(tbase, tsize, nb);
      }
    }

    /** The free chunk `p` of a segment that may be given back leaves its bin, or stops being the designated victim. */
    method TakeOut(p: int)
      requires Phase() && (p != dv ==> p in bins.sz && bins.sz[p] >= 256) && (p == dv ==> p !in bins.sz)
      modifies this`mem, this`treemap, this`bins, this`dv, this`dvsize
      ensures Phase() && bins.sz == old(bins.sz) - {p} && (mem == old(mem) || PayloadsKept(old(mem), mem, ck))
      ensures if p == old(dv) then dv == 0 && dvsize == 0 else dv == old(dv) && dvsize == old(dvsize)
    {
      hide Loose, PayloadsKept;
      if p == dv {
        dv := 0;
        dvsize := 0;
      } else {
        TreeMember(mem, smallmap, treemap, bins, ck, segs, leastAddr, p);
        UnlinkTreeChunk(p);
      }
    }

    /** Giving back the older segment `k`, whose first chunk `p` is free and is all that it holds. */
    method GiveBack(pred: int, p: int, psize: int, size: int, next: int, ghost k: nat,
                    unmapped: bool) returns (released: int)
      requires 1 <= k < |segs| && pred == segs[k - 1].rec && p == segs[k].base && p in ck && psize == ck[p].size
      requires size == segs[k].size && size > 0 && next == NextRecord(segs, k)
      requires ck[p] == Chunk(psize, Free, 0) && p != 0 && Unused(ck, segs, k)
      requires if p == dv then p !in bins.sz else p in bins.sz && bins.sz[p] >= 256
      requires Valid() && Accounted()
      modifies this`mem, this`smallmap, this`treemap, this`bins, this`ck, this`segs, this`dv, this`dvsize,
               this`footprint
      ensures Valid() && Accounted() && LiveOf(ck) == LiveOf(old(ck)) && BlocksKept(old(mem), mem, LiveOf(old(ck)))
      ensures released == (if unmapped then old(segs)[k].size else 0) && footprint == old(footprint) - released
      ensures if unmapped then SegmentGone(old(ck), old(segs), ck, segs, k) else segs == old(segs) && ck == old(ck)
    {
      hide Loose, Settled, LiveOf, BlocksKept, SegTotal, Drop, WithoutSegment, PayloadsKept, Unused;
      ghost var l, c, g, z0, d0, e0 := mem, ck, segs, bins.sz, dv, dvsize;
      released := 0;
      TakeOut(p);
      ghost var m := mem;
      if unmapped {
        ReleaseDone(l, m, smallmap, treemap, bins, c, g, leastAddr, k, z0, d0, e0, top, topsize, dv, dvsize);
        released := released + size;
        footprint := footprint - size;
        mem := mem[pred + SEG_NEXT := next];
        ck, segs := Drop(c, g[k].base, g[k].base + g[k].size), WithoutSegment(g, k);
      } else {
        InsertChunk(p, psize);
        BackOutDone(l, m, mem, smallmap, treemap, bins, c, g, leastAddr, p, psize, z0, d0, e0, top, topsize, dv,
                    dvsize);
      }
    }

    /** One turn of release_unused_segments, for the older segment `k`; `unmapped` is the answer to the
        munmap call that it makes if nothing in the segment is in use. */
    method ReleaseSegment(pred: int, sp: int, ghost k: nat, unmapped: bool) returns (released: int)
      requires Valid() && Accounted() && 1 <= k < |segs| && pred == segs[k - 1].rec && sp == segs[k].rec
      modifies this`mem, this`smallmap, this`treemap, this`bins, this`ck, this`segs, this`dv, this`dvsize,
               this`footprint
      ensures Valid() && Accounted() && LiveOf(ck) == LiveOf(old(ck)) && BlocksKept(old(mem), mem, LiveOf(old(ck)))
      ensures released == (if unmapped && Unused(old(ck), old(segs), k) then old(segs)[k].size else 0)
      ensures released >= 0 && footprint == old(footprint) - released
      ensures released == 0 ==> segs == old(segs) && ck == old(ck)
      ensures released != 0 ==> SegmentGone(old(ck), old(segs), ck, segs, k)
      ensures released == 0 ==> !(unmapped && Unused(ck, segs, k))
    {
      hide Loose, Settled, LiveOf, BlocksKept, SegTotal, Drop, WithoutSegment, PayloadsKept;
      released := 0;
      ReadSegment(mem, smallmap, treemap, bins, ck, segs, leastAddr, k, dv, dvsize, top, topsize);
      SameBlocks(mem, ck);
      var base, size, next := Rd(mem, sp), Rd(mem, sp + SEG_SIZE), Rd(mem, sp + SEG_NEXT);
      if Rd(mem, sp + SEG_FLAGS) == USE_MMAP_BIT {
        var p := base + AlignOffset(base + 16);
        var psize := ChunkSize(Rd(mem, p + HEAD));
        if !IsInUse(Rd(mem, p + HEAD)) && p + psize >= base + size - TOP_FOOT_SIZE {
          assert Unused(ck, segs, k);
          released := GiveBack(pred, p, psize, size, next, k, unmapped);
        }
      }
    }

    /** release_unused_segments; `unmaps` says of each address whether the system takes back what is mapped there.
        Afterwards no older segment is left that is unused and that the system would have taken. */
    method ReleaseUnusedSegments(unmaps: int -> bool) returns (released: int)
      requires Valid() && Accounted() && segs != []
      modifies this`mem, this`smallmap, this`treemap, this`bins, this`ck, this`segs, this`dv, this`dvsize,
               this`footprint, this`releaseChecks
      ensures Valid() && Accounted() && LiveOf(ck) == LiveOf(old(ck)) && BlocksKept(old(mem), mem, LiveOf(old(ck)))
      ensures segs != [] && segs[0] == old(segs[0]) && released >= 0 && footprint == old(footprint) - released
      ensures released == 0 ==> segs == old(segs) && ck == old(ck)
      ensures Swept(ck, segs, unmaps, |segs|)
      ensures segs == SweptList(old(ck), old(segs), unmaps) && (released == 0 <==> segs == old(segs))
      ensures ChecksReset(|old(segs)|, releaseChecks)
    {
      hide Loose, Settled, LiveOf, BlocksKept, SegTotal, NextRecord, SegmentGone, Unused, Swept, Sweeping, SweptList;
      SameBlocks(mem, ck);
      NextInList(mem, smallmap, treemap, bins, ck, segs, leastAddr, 1);
      released := 0;
      var nsegs := 0;
      var pred := SEG;
      var sp := Rd(mem, pred + SEG_NEXT);
      ghost var k := 1;
      NothingSwept(ck, segs, unmaps);
      SweepBegins(ck, segs, unmaps);
      while sp != 0
        invariant Valid() && Accounted() && LiveOf(ck) == LiveOf(old(ck)) && BlocksKept(old(mem), mem, LiveOf(old(ck)))
        invariant 1 <= k <= |segs| && segs[0] == old(segs[0])
        invariant pred == segs[k - 1].rec && sp == NextRecord(segs, k - 1)
        invariant released >= 0 && footprint == old(footprint) - released
        invariant released == 0 ==> segs == old(segs) && ck == old(ck)
        invariant released != 0 ==> |segs| < |old(segs)|
        invariant Sweeping(old(ck), old(segs), unmaps, ck, segs, k)
        invariant Swept(ck, segs, unmaps, k) && nsegs + |segs| - k == |old(segs)| - 1
        decreases |segs| - k
      {
        ghost var m, x, y, b, c, g := mem, smallmap, treemap, bins, ck, segs;
        NextInList(mem, smallmap, treemap, bins, ck, segs, leastAddr, k);
        var base, next := Rd(mem, sp), Rd(mem, sp + SEG_NEXT);
        nsegs := nsegs + 1;
        var size := ReleaseSegment(pred, sp, k, unmaps(base));
        BlocksTwice(old(mem), m, mem, LiveOf(old(ck)));
        released := released + size;
        if size != 0 {
          AfterRemoval(c, g, ck, segs, unmaps, k);
          SegmentTaken(m, x, y, b, c, g, leastAddr, old(ck), old(segs), unmaps, k, ck, segs);
          sp := pred;
        } else {
          SweptOn(ck, segs, unmaps, k);
          SweepStays(old(ck), old(segs), unmaps, ck, segs, k);
          k := k + 1;
        }
        pred := sp;
        sp := next;
      }
      NextInList(mem, smallmap, treemap, bins, ck, segs, leastAddr, k);
      SweepEnds(old(ck), old(segs), unmaps, ck, segs);
      releaseChecks := if nsegs > MAX_RELEASE_CHECK_RATE then nsegs else MAX_RELEASE_CHECK_RATE;
    }

    /** sys_trim, the system having taken back the last `released` bytes of the newest segment. */
    method ShrinkTop(sp: int, released: int)
      requires Valid() && Accounted() && segs != [] && 0 <= released < topsize && released % Pow2(GRANULARITY_BITS) == 0
      requires sp == SEG
      modifies this`mem, this`ck, this`segs, this`footprint, this`top, this`topsize, this`trimCheck
      ensures Valid() && Accounted() && LiveOf(ck) == LiveOf(old(ck)) && BlocksKept(old(mem), mem, LiveOf(old(ck)))
      ensures segs != [] && top == old(top) && topsize == old(topsize) - released
      ensures footprint == old(footprint) - released && trimCheck == TRIM_THRESHOLD
      ensures top in old(ck) && ck == ResizeTop(old(ck), top, topsize) && segs == Shortened(old(segs), released)
    {
      hide Loose, Settled, LiveOf, BlocksKept, SegTotal, ResizeTop;
      TrimStep(mem, smallmap, treemap, bins, ck, segs, leastAddr, dv, dvsize, top, topsize, released);
      mem := mem[sp + SEG_SIZE := Rd(mem, sp + SEG_SIZE) - released];
      footprint := footprint - released;
      InitTop(top, topsize - released);
      ck, segs := ResizeTop(ck, top, topsize), segs[0 := Segment(segs[0].base, segs[0].size - released, segs[0].rec)];
    }

    /** sys_trim: giving back the end of the top, of which `pad` bytes are to stay. */
    method TrimTop(pad: int, unmaps: int -> bool) returns (released: int)
      requires Valid() && Accounted() && 0 <= pad < topsize && segs != []
      modifies this`mem, this`ck, this`segs, this`footprint, this`top, this`topsize, this`trimCheck
      ensures Valid() && Accounted() && LiveOf(ck) == LiveOf(old(ck)) && BlocksKept(old(mem), mem, LiveOf(old(ck)))
      ensures segs != [] && top == old(top) && topsize == old(topsize) - released && 0 <= released < old(topsize) - pad
      ensures footprint == old(footprint) - released && (released == 0 ==> segs == old(segs) && ck == old(ck))
      ensures TopLeft(old(segs), old(topsize), pad, unmaps, topsize)
      ensures trimCheck == if released == 0 then old(trimCheck) else TRIM_THRESHOLD
      ensures segs == Shortened(old(segs), released)
      ensures released != 0 ==> top in old(ck) && ck == ResizeTop(old(ck), top, topsize)
    {
      hide Loose, Settled, LiveOf, BlocksKept, SegTotal, TrimExtra, Holds, ResizeTop;
      SameBlocks(mem, ck);
      released := 0;
      var extra := TrimExtra(topsize, pad);
      TrimBound(topsize, pad);
      NoLinks(mem, smallmap, treemap, bins, ck, segs, leastAddr, dv, dvsize, top, topsize);
      var sp := SegmentHolding(top, 0);
      if Rd(mem, sp + SEG_FLAGS) == USE_MMAP_BIT {
        var pinned := HasSegmentLink(sp, 0);
        if Rd(mem, sp + SEG_SIZE) >= extra && !pinned {
          if unmaps(Rd(mem, sp) + (Rd(mem, sp + SEG_SIZE) - extra)) {
            released := extra;
          }
        }
      }
      if released != 0 {
        ShrinkTop(sp, released);
      }
    }

    /** sys_trim */
    method SysTrim(pad0: int, unmaps: int -> bool) returns (trimmed: bool)
      requires Valid() && Accounted() && pad0 >= 0
      modifies this`mem, this`smallmap, this`treemap, this`bins, this`ck, this`segs, this`dv, this`dvsize,
               this`footprint, this`releaseChecks,
               this`top, this`topsize, this`trimCheck
      ensures Valid() && Accounted() && LiveOf(ck) == LiveOf(old(ck)) && BlocksKept(old(mem), mem, LiveOf(old(ck)))
      ensures old(topsize) > pad0 + TOP_FOOT_SIZE ==> topsize > pad0 + TOP_FOOT_SIZE
      ensures old(topsize) <= pad0 + TOP_FOOT_SIZE ==> topsize == old(topsize)
      ensures top == old(top) && footprint <= old(footprint) && (trimmed <==> footprint < old(footprint))
      ensures !trimmed ==> segs == old(segs) && ck == old(ck)
      ensures pad0 < MAX_REQUEST ==> Swept(ck, segs, unmaps, |segs|)
      ensures pad0 < MAX_REQUEST && old(topsize) > pad0 + TOP_FOOT_SIZE && TakesAll(unmaps) ==>
        0 < topsize - (pad0 + TOP_FOOT_SIZE) <= Pow2(GRANULARITY_BITS)
      ensures if pad0 < MAX_REQUEST && old(segs) != [] then
          Trimmed(old(ck), old(segs), old(topsize), old(trimCheck), pad0 + TOP_FOOT_SIZE, unmaps, segs, topsize,
                  trimCheck, releaseChecks)
        else unchanged(this)
    {
      hide Loose, Settled, LiveOf, BlocksKept, SegTotal, TrimExtra, ResizeTop, SweptList, ChecksReset, Shortened,
           Trimmed, TopLeft;
      SameBlocks(mem, ck);
      SystemReady(mem, smallmap, treemap, bins, ck, segs, leastAddr, dv, dvsize, top, topsize);
      var released := 0;
      if pad0 < MAX_REQUEST && top != 0 {
        var pad := pad0 + TOP_FOOT_SIZE;
        ghost var m, x, y, b, c, g, t := mem, smallmap, treemap, bins, ck, segs, topsize;
        NothingTrimmed(c, g, t, pad, unmaps);
        if topsize > pad {
          released := TrimTop(pad, unmaps);
          OlderSame(m, x, y, b, c, g, leastAddr, dv, dvsize, top, t, unmaps, released);
          WithinUnit(g, t, pad, unmaps, topsize);
        }
        ghost var cut, d, h, mid := released, ck, segs, trimCheck;
        m := mem;
        var more := ReleaseUnusedSegments(unmaps);
        BlocksTwice(old(mem), m, mem, LiveOf(old(ck)));
        released := released + more;
        if released == 0 && topsize > trimCheck {
          trimCheck := W64 - 1;
        }
        BothParts(c, g, t, old(trimCheck), pad, unmaps, cut, more, d, h, mid, segs, topsize, trimCheck, releaseChecks);
      }
      trimmed := released != 0;
    }

    /** dlfree */
    method Dlfree(r: int, unmaps: int -> bool)
      requires Valid() && Accounted() && (r != 0 ==> r - 16 in ck && ck[r - 16].kind == Live)
      modifies this`mem, this`smallmap, this`treemap, this`bins, this`ck, this`segs, this`dv, this`dvsize,
               this`footprint, this`releaseChecks,
               this`top, this`topsize, this`trimCheck, this`inUseBytes
      ensures Valid() && Accounted() && inUseBytes - Total(LiveOf(ck)) == old(inUseBytes) - Total(LiveOf(old(ck)))
      ensures r == 0 ==> unchanged(this)
      ensures r != 0 ==> LiveOf(ck) == LiveOf(old(ck)) - {r - 16} && BlocksKept(old(mem), mem, LiveOf(ck))
      ensures r != 0 && segs == old(segs) ==> RunBase(old(ck), r - 16) in old(ck) && ck == Freed(old(ck), r - 16)
      ensures r != 0 ==> RunBase(old(ck), r - 16) in old(ck)
      ensures r != 0 ==>
        OnceMerged(Freed(old(ck), r - 16), RunBase(old(ck), r - 16), !MergesDv(old(ck), r - 16, old(dv)), old(segs),
                   old(topsize), old(trimCheck), old(releaseChecks), unmaps, segs, topsize, trimCheck, releaseChecks)
    {
      hide Loose, Settled, LiveOf, BlocksKept, SegTotal, Freed, RunBase, HalfMerged, Total, MergesDv, OnceMerged;
      if r != 0 {
        var p := r - 16;
        ghost var l, z0 := mem, bins.sz;
        FreeChecks(mem, smallmap, treemap, bins, ck, segs, leastAddr, p, dv, dvsize, top, topsize);
        if p >= leastAddr && IsInUse(Rd(mem, p + HEAD)) {
          var psize := ChunkSize(Rd(mem, p + HEAD));
          FreedTotal(ck, p);
          inUseBytes := inUseBytes - psize;
          var next := p + psize;
          var q, s, done := MergeBack(p, psize);
          if done {
            VictimOnly(ck, q, segs, topsize, trimCheck, releaseChecks, unmaps);
          } else {
            FreeForward(l, z0, p, q, s, next, unmaps);
          }
        } else {
          assert false;  // USAGE_ERROR_ACTION
        }
      }
    }

    /** dlfree, when the chunk before has been seen to. */
    method FreeForward(ghost l: Mem, ghost z0: map<int, int>, ghost p0: int, p: int, s: int, next: int,
                       unmaps: int -> bool)
      requires HalfMerged(l, mem, smallmap, treemap, bins, ck, segs, leastAddr, p0, p, z0, dv, dvsize, top, topsize)
      requires p0 in ck && next == p0 + ck[p0].size && s == next - p && (p == dv ==> !CurInUse(Rd(mem, next + HEAD)))
      requires Accounted() && segs != []
      modifies this`mem, this`smallmap, this`treemap, this`bins, this`ck, this`segs, this`dv, this`dvsize,
               this`footprint, this`releaseChecks,
               this`top, this`topsize, this`trimCheck
      ensures Valid() && Accounted() && RunBase(old(ck), p0) in old(ck)
      ensures LiveOf(ck) == LiveOf(old(ck)) - {p0} && BlocksKept(l, mem, LiveOf(ck))
      ensures segs == old(segs) ==> ck == Freed(old(ck), p0)
      ensures OnceMerged(Freed(old(ck), p0), p, !MergesDv(old(ck), p0, old(dv)), old(segs), old(topsize),
                         old(trimCheck), old(releaseChecks), unmaps, segs, topsize, trimCheck, releaseChecks)
    {
      hide Loose, Settled, LiveOf, BlocksKept, SegTotal, Freed, RunBase, HalfMerged, MergesDv, OnceMerged;
      NextChecks(l, mem, smallmap, treemap, bins, ck, segs, leastAddr, p0, p, z0, dv, dvsize, top, topsize);
      if p < next && PrevInUse(Rd(mem, next + HEAD)) {
        var topped, binned, size := MergeForward(l, z0, p0, p, s, next);
        ghost var t := topsize;
        AfterFree(l, topped, binned, p, size, unmaps);
        TopAlone(Freed(old(ck), p0), p, binned, !MergesDv(old(ck), p0, old(dv)), old(segs), t, old(topsize),
                 old(trimCheck), old(releaseChecks), unmaps, segs, topsize, trimCheck, releaseChecks);
      } else {
        assert false;  // USAGE_ERROR_ACTION
      }
    }

    /** What dlfree does last: trimming the top, or now and then looking for segments to give back. */
    method AfterFree(ghost l: Mem, topped: bool, binned: bool, ghost q: int, size: int, unmaps: int -> bool)
      requires q in ck && (ck[q].kind == Top <==> topped) && (topped ==> topsize == ck[q].size)
      requires binned ==> !topped && size == ck[q].size
      requires Valid() && Accounted() && BlocksKept(l, mem, LiveOf(ck)) && segs != []
      modifies this`mem, this`smallmap, this`treemap, this`bins, this`ck, this`segs, this`dv, this`dvsize,
               this`footprint, this`releaseChecks,
               this`top, this`topsize, this`trimCheck
      ensures Valid() && Accounted() && LiveOf(ck) == LiveOf(old(ck)) && BlocksKept(l, mem, LiveOf(ck))
      ensures segs == old(segs) ==> ck == old(ck)
      ensures OnceMerged(old(ck), q, binned, old(segs), old(topsize), old(trimCheck), old(releaseChecks), unmaps, segs,
                         topsize, trimCheck, releaseChecks)
    {
      hide Loose, Settled, LiveOf, BlocksKept, SegTotal, Freed, RunBase, Total, Trimmed, SweptList, ChecksReset, Swept;
      if topped {
        if topsize > trimCheck {
          var trimmed := SysTrim(0, unmaps);
          BlocksTwice(l, old(mem), mem, LiveOf(ck));
        }
      } else if binned && size >= 256 {
        releaseChecks := if releaseChecks == 0 then W64 - 1 else releaseChecks - 1;
        if releaseChecks == 0 {
          var released := ReleaseUnusedSegments(unmaps);
          BlocksTwice(l, old(mem), mem, LiveOf(ck));
        }
      }
    }

    // ----- dlmalloc

    /** unlink_first_small_chunk, on the heap */
    method UnlinkFirstOfBin(p: int, i: nat)
      requires Phase() && i < NBINS && Marked(smallmap, i) && p == Rd(mem, SmallBinAt(i) + FD)
      modifies this`mem, this`smallmap, this`bins
      ensures Phase() && PayloadsKept(old(mem), mem, ck)
      ensures p in old(bins.sz) && old(bins.sz[p]) == 8 * i && SmallSize(8 * i) && bins.sz == old(bins.sz) - {p}
      ensures p in ck && ck[p].kind == Free && ck[p].size == 8 * i
    {
      hide Loose, Held, BinsReady, Within, PayloadsKept, IdleKept, BinsOk, Marked, SmallSize, FreeIn;
      LooseBins(mem, smallmap, treemap, bins, ck, segs, leastAddr);
      UnlinkFirstSmallChunk(p, i);
      FewerFree(ck, old(bins.sz), p);
      FreeChunk(ck, old(bins.sz), p);
      BinStep(old(mem), mem, old(smallmap), treemap, old(bins), smallmap, treemap, bins, ck, leastAddr, old(bins.sz));
      LooseAgain(old(mem), mem, old(smallmap), treemap, old(bins), smallmap, treemap, bins, ck, segs, leastAddr);
    }

    /** A remainderless fit: the first chunk of the marked bin `i`. */
    method TakeFirst(nb: int, i: nat) returns (r: int)
      requires Valid() && i < NBINS && Marked(smallmap, i) && nb <= 8 * i < nb + MIN_CHUNK_SIZE
      modifies this`mem, this`smallmap, this`bins, this`ck
      ensures Valid() && r > 0 && Granted(old(mem), old(ck), mem, ck, r, nb) && Fits(old(ck), nb)
      ensures FromBin(old(mem), old(ck), dv, r - 16, i)
      ensures Carved(old(ck), dv, dvsize, top, topsize, nb, r - 16, ck, dv, dvsize, top, topsize)
    {
      hide Carved, Loose, Settled, PayloadsKept, Granted, Take, SetInuseAndPinuse, Marked, Fits;
      ghost var m0, b0, c0 := mem, bins, ck;
      var p := Rd(mem, SmallBinAt(i) + FD);
      UnlinkFirstOfBin(p, i);
      FitsAt(c0, nb, p);
      NotVictim(b0.sz, c0, segs, dv, dvsize, top, topsize, p);
      ghost var m1 := mem;
      WholeStep(m1, smallmap, treemap, b0, bins, c0, segs, leastAddr, dv, dvsize, top, topsize, p, nb);
      CarvedWhole(c0, dv, dvsize, top, topsize, nb, p);
      mem := SetInuseAndPinuse(mem, p, 8 * i);
      ck := Take(c0, p);
      GrantedAfter(m0, m1, c0, mem, ck, p + 16, nb);
      r := p + 16;
      GrantedNonNull(m0, c0, mem, ck, r, nb);
    }

    /** The first chunk of the marked bin `i` above those that fit exactly; what is left becomes the designated
        victim. */
    method SplitFirst(nb: int, i: nat) returns (r: int)
      requires Valid() && i < NBINS && Marked(smallmap, i) && SmallSize(nb) && nb <= 8 * i && dvsize < nb
      modifies this`mem, this`smallmap, this`treemap, this`bins, this`ck, this`dv, this`dvsize
      ensures Valid() && r > 0 && Granted(old(mem), old(ck), mem, ck, r, nb) && Fits(old(ck), nb)
      ensures FromBin(old(mem), old(ck), old(dv), r - 16, i)
      ensures Carved(old(ck), old(dv), old(dvsize), top, topsize, nb, r - 16, ck, dv, dvsize, top, topsize)
    {
      hide Carved, Loose, Settled, PayloadsKept, Granted, Take, Split, SetInuseAndPinuse, SetSizeOfInuse, SetSizeOfFree,
           Marked, Fits;
      ghost var m0, b0, c0 := mem, bins, ck;
      var p := Rd(mem, SmallBinAt(i) + FD);
      UnlinkFirstOfBin(p, i);
      FitsAt(c0, nb, p);
      NotVictim(b0.sz, c0, segs, dv, dvsize, top, topsize, p);
      ghost var m1, b1 := mem, bins;
      var rsize := 8 * i - nb;
      if rsize < MIN_CHUNK_SIZE {
        WholeStep(m1, smallmap, treemap, b0, b1, c0, segs, leastAddr, dv, dvsize, top, topsize, p, nb);
        CarvedWhole(c0, dv, dvsize, top, topsize, nb, p);
        mem := SetInuseAndPinuse(mem, p, 8 * i);
        ck := Take(c0, p);
        GrantedAfter(m0, m1, c0, mem, ck, p + 16, nb);
      } else {
        FrontStep(m1, smallmap, treemap, b0, b1, c0, segs, leastAddr, dv, dvsize, top, topsize, p, nb);
        CarvedFront(c0, dv, dvsize, top, topsize, nb, p, rsize);
        mem := SetSizeOfInuse(mem, p, nb);
        mem := SetSizeOfFree(mem, p + nb, rsize);
        ck := Split(c0, p, nb);
        GrantedAfter(m0, m1, c0, mem, ck, p + 16, nb);
        ghost var m2 := mem;
        ReplaceDv(p + nb, rsize);
        GrantedBefore(m0, c0, m2, mem, ck, p + 16, nb);
      }
      r := p + 16;
      GrantedNonNull(m0, c0, mem, ck, r, nb);
    }

    /** Splitting or exhausting the designated victim. */
    method TakeDv(nb: int) returns (r: int)
      requires Valid() && MIN_CHUNK_SIZE <= nb <= dvsize && nb % 16 == 0
      modifies this`mem, this`ck, this`dv, this`dvsize
      ensures Valid() && r > 0 && Granted(old(mem), old(ck), mem, ck, r, nb)
      ensures r - 16 == old(dv)
      ensures Carved(old(ck), old(dv), old(dvsize), top, topsize, nb, r - 16, ck, dv, dvsize, top, topsize)
    {
      hide Carved, Loose, Settled, Granted, Take, Split, SetInuseAndPinuse, SetSizeOfInuse, SetSizeOfFree;
      ghost var m0, c0 := mem, ck;
      var rsize := dvsize - nb;
      var p := dv;
      VictimWhole(bins.sz, ck, segs, dv, dvsize, top, topsize);
      if rsize >= MIN_CHUNK_SIZE {
        DvFrontStep(mem, smallmap, treemap, bins, ck, segs, leastAddr, dv, dvsize, top, topsize, nb);
        CarvedFront(c0, dv, dvsize, top, topsize, nb, p, rsize);
        dv := p + nb;
        dvsize := rsize;
        mem := SetSizeOfFree(mem, p + nb, rsize);
        mem := SetSizeOfInuse(mem, p, nb);
        ck := Split(c0, p, nb);
      } else {
        DvWholeStep(mem, smallmap, treemap, bins, ck, segs, leastAddr, dv, dvsize, top, topsize, nb);
        CarvedWhole(c0, dv, dvsize, top, topsize, nb, p);
        var dvs := dvsize;
        dvsize := 0;
        dv := 0;
        mem := SetInuseAndPinuse(mem, p, dvs);
        ck := Take(c0, p);
      }
      r := p + 16;
      GrantedNonNull(m0, c0, mem, ck, r, nb);
    }

    /** dlmalloc, small requests: an exactly fitting small chunk, or, if the designated victim is too small,
        a chunk of the next small bin that has one, or else the smallest tree chunk. */
    method MallocSmall(nb: int) returns (r: int)
      requires Valid() && MIN_CHUNK_SIZE <= nb <= 240 && nb % 16 == 0
      modifies this`mem, this`smallmap, this`treemap, this`bins, this`ck, this`dv, this`dvsize
      ensures Valid()
      ensures r != 0 ==> Granted(old(mem), old(ck), mem, ck, r, nb) && Fits(old(ck), nb)
      ensures r != 0 ==> Picked(old(mem), old(ck), old(dv), old(dvsize), top, nb, r - 16)
      ensures r != 0 ==>
        Carved(old(ck), old(dv), old(dvsize), top, topsize, nb, r - 16, ck, dv, dvsize, top, topsize)
      ensures r == 0 ==> unchanged(this) && if nb <= dvsize then NoExact(ck, dv, nb) else !Fits(ck, nb)
    {
      hide Picked, Carved, FromBin, Exact, NoExact, Loose, Settled, Granted, Marked, Idx, SmallBits, ShiftedLeft,
           Bit2Idx, LeastBit, FirstMarked, NoneFrom, Fits;
      r := 0;
      var idx := nb / 8;
      ShiftedLow(smallmap, idx);
      var smallbits := SmallBits(smallmap, Idx(idx));
      if smallbits & 3 == 0 {
        ShiftedHigh(smallmap, idx);
        ExactMarked(mem, smallmap, treemap, bins, ck, segs, leastAddr, dv, dvsize, top, topsize, nb);
      }
      if smallbits & 3 != 0 {
        idx := idx + (!smallbits & 1) as int;
        r := TakeFirst(nb, idx);
        ExactPicked(old(mem), old(smallmap), old(treemap), old(bins), old(ck), segs, leastAddr, dv, dvsize, top, topsize,
                    nb, idx, r - 16);
      } else if nb > dvsize {
        if smallbits != 0 {
          var i := Bit2Idx(LeastBit(ShiftedLeft(smallmap, Idx(idx))));
          FirstIs(smallmap, idx, i);
          IndexSize(nb, i);
          r := SplitFirst(nb, i);
          FirstPicked(old(mem), old(smallmap), old(treemap), old(bins), old(ck), segs, leastAddr, old(dv), old(dvsize),
                      top, topsize, nb, i, r - 16);
        } else if treemap != 0 {
          r := TmallocSmall(nb);
          FitsAt(old(ck), nb, r - 16);
          TreePicked(old(mem), old(smallmap), old(treemap), old(bins), old(ck), segs, leastAddr, old(dv), old(dvsize),
                     top, topsize, nb, r - 16);
        } else {
          NothingBinned(mem, smallmap, treemap, bins, ck, segs, leastAddr, dv, dvsize, top, topsize, nb);
        }
      }
    }

    /** dlmalloc, large requests. */
    method MallocLarge(nb: int) returns (r: int)
      requires Valid() && 256 <= nb < W64 && nb % 16 == 0
      modifies this`mem, this`smallmap, this`treemap, this`bins, this`ck
      ensures Valid()
      ensures r != 0 ==> Granted(old(mem), old(ck), mem, ck, r, nb) && Fits(old(ck), nb)
      ensures r != 0 ==> Picked(old(mem), old(ck), dv, dvsize, top, nb, r - 16)
      ensures r != 0 ==> Carved(old(ck), dv, dvsize, top, topsize, nb, r - 16, ck, dv, dvsize, top, topsize)
      ensures r == 0 ==> unchanged(this) && if nb <= dvsize then Tightest(ck, nb, dv) else !Fits(ck, nb)
    {
      hide Loose, Settled, Granted, Fits, Picked, Carved, Tightest;
      if treemap != 0 {
        r := TmallocLarge(nb);
        if r == 0 {
          NoneBeatsDv(mem, smallmap, treemap, bins, ck, segs, leastAddr, dv, dvsize, top, topsize, nb);
          if nb <= dvsize { VictimTightest(bins.sz, ck, segs, dv, dvsize, top, topsize, nb); }
        } else {
          FitsAt(old(ck), nb, r - 16);
          LargePicked(old(mem), old(smallmap), old(treemap), old(bins), old(ck), segs, leastAddr, dv, dvsize, top,
                      topsize, nb, r - 16);
        }
      } else {
        r := 0;
        NothingLarge(mem, smallmap, treemap, bins, ck, segs, leastAddr, dv, dvsize, top, topsize, nb);
        if nb <= dvsize {
          VictimTightest(bins.sz, ck, segs, dv, dvsize, top, topsize, nb);
        } else {
          NoTrees(mem, smallmap, treemap, bins, ck, segs, leastAddr, dv, dvsize, top, topsize, nb);
        }
      }
    }

    /** A request of `nb` bytes can be met without asking the system. */
    ghost predicate CanServe(nb: int)
      reads this`ck, this`topsize
    {
      Fits(ck, nb) || nb < topsize
    }

    /** When dlmalloc gives null: nothing held is large enough, and more is not to be had. */
    ghost predicate Refuses(bytes: int, mp: int)
      reads this`ck, this`topsize, this`footprint, this`footprintLimit
    {
      !CanServe(MallocSize(bytes)) && (TurnedDown(MallocSize(bytes)) || mp == CMFAIL)
    }

    /** dlmalloc up to the point where it asks the system. */
    method FindChunk(bytes: int) returns (r: int)
      requires Valid() && 0 <= bytes < W64
      modifies this`mem, this`smallmap, this`treemap, this`bins, this`ck, this`dv, this`dvsize, this`top, this`topsize
      ensures Valid()
      ensures r == 0 <==> !old(CanServe(MallocSize(bytes)))
      ensures r == 0 ==> unchanged(this)
      ensures r != 0 ==> Granted(old(mem), old(ck), mem, ck, r, MallocSize(bytes))
      ensures r != 0 ==> Picked(old(mem), old(ck), old(dv), old(dvsize), old(top), MallocSize(bytes), r - 16)
      ensures r != 0 ==> Carved(old(ck), old(dv), old(dvsize), old(top), old(topsize), MallocSize(bytes), r - 16,
                                ck, dv, dvsize, top, topsize)
    {
      hide Loose, Settled, Granted, Fits, MallocSize, Picked, Carved, Tightest, NoExact;
      RequestFits(bytes);
      SizesSmall(mem, smallmap, treemap, bins, ck, segs, leastAddr, dv, dvsize, top, topsize);
      r := 0;
      var nb := MallocSize(bytes);
      if bytes <= MAX_SMALL_REQUEST {
        r := MallocSmall(nb);
      } else if bytes < MAX_REQUEST {
        r := MallocLarge(nb);
      }
      if r == 0 {
        if nb <= dvsize {
          DvFits(mem, smallmap, treemap, bins, ck, segs, leastAddr, dv, dvsize, top, topsize, nb);
          r := TakeDv(nb);
          VictimPicked(old(mem), old(ck), old(dv), old(dvsize), top, nb);
        } else if nb < topsize {
          r := SplitTop(nb);
          TopPicked(old(mem), old(ck), dv, dvsize, old(top), nb);
        }
      }
    }

    /** dlmalloc; `mp` is the system's answer, should it be asked. */
    method Dlmalloc(bytes: int, mp: int) returns (r: int)
      requires Valid() && Accounted() && 0 <= bytes < W64 && 0 <= footprintLimit < W64
      requires mp != CMFAIL && AllocSize(MallocSize(bytes)) > MallocSize(bytes) ==>
        Mapped(segs, mp, AllocSize(MallocSize(bytes)))
      modifies this`mem, this`smallmap, this`treemap, this`bins, this`ck, this`segs, this`leastAddr, this`dv,
               this`dvsize, this`top, this`topsize,
               this`trimCheck, this`releaseChecks, this`footprint, this`maxFootprint, this`inUseBytes
      ensures Valid() && Accounted() && inUseBytes - Total(LiveOf(ck)) == old(inUseBytes) - Total(LiveOf(old(ck)))
      ensures r == 0 <==> old(Refuses(bytes, mp))
      ensures r == 0 ==> unchanged(this)
      ensures r != 0 ==> Granted(old(mem), old(ck), mem, ck, r, MallocSize(bytes))
      ensures r != 0 ==> Sited(old(mem), old(ck), old(segs), old(dv), old(dvsize), old(top), old(topsize),
                                MallocSize(bytes), mp, segs, r - 16)
      ensures old(CanServe(MallocSize(bytes))) ==> segs == old(segs) && footprint == old(footprint)
      ensures old(CanServe(MallocSize(bytes))) ==>
        Picked(old(mem), old(ck), old(dv), old(dvsize), old(top), MallocSize(bytes), r - 16)
      ensures old(CanServe(MallocSize(bytes))) ==>
        Carved(old(ck), old(dv), old(dvsize), old(top), old(topsize), MallocSize(bytes), r - 16,
               ck, dv, dvsize, top, topsize)
      ensures r != 0 && !old(CanServe(MallocSize(bytes))) ==>
        footprint == old(footprint) + AllocSize(MallocSize(bytes)) &&
          (footprintLimit == 0 || footprint <= footprintLimit)
      ensures r != 0 && !old(CanServe(MallocSize(bytes))) ==>
        Joined(old(ck), old(segs), old(top), mp, AllocSize(MallocSize(bytes)), segs, r - 16)
    {
      hide Joined, Picked, Carved, Loose, Settled, Granted, Fits, MallocSize, RequestSize, PadRequest, AllocSize,
           Mapped, SegTotal, Total,
           LiveOf;
      RequestFits(bytes);
      r := FindChunk(bytes);
      var nb := MallocSize(bytes);
      if r == 0 {
        r := SysAlloc(nb, mp);
      }
      if r != 0 {
        GrantedTotal(old(mem), old(ck), mem, smallmap, treemap, bins, ck, segs, leastAddr, r, nb);
        inUseBytes := inUseBytes + ChunkSize(Rd(mem, r - 16 + HEAD));
      }
    }

    // ----- realloc

    /** Cutting a block after `nb` bytes and giving back the rest, as realloc and memalign do. */
    method SplitOff(p: int, nb: int, rsize: int)
      requires Valid() && CanCut(ck, p, nb) && rsize == ck[p].size - nb
      modifies this`mem, this`smallmap, this`treemap, this`bins, this`ck, this`dv, this`dvsize, this`top, this`topsize
      ensures Valid() && Resized(old(mem), old(ck), mem, ck, p, nb)
      ensures GivenBack(old(ck), ck, p, nb)
    {
      hide Loose, Settled, LiveOf, BlocksKept, PayloadsKept, Freed, RunBase, SetBoth, SetInuse, Resized, Cut;
      ghost var l, c := mem, ck;
      ghost var d := Cut(ck, p, nb);
      CutStep(mem, smallmap, treemap, bins, ck, d, segs, leastAddr, dv, dvsize, top, topsize, p, nb, rsize);
      var r := p + nb;
      ghost var n := SetBoth(mem, p, nb, rsize);
      BothIs(mem, p, nb, rsize);
      mem := SetInuse(mem, p, nb);
      mem := SetInuse(mem, r, rsize);
      ck := d;
      DisposeChunk(r, rsize);
      KeptSelf(l, c);
      SameLive(c, p);
      StillThere(d, ck, p, r);
      ResizedTwice(l, l, l, n, mem, c, c, d, ck, p, nb, r, rsize);
    }

    /** try_realloc_chunk, when the chunk is already big enough. */
    method ReallocShrink(p: int, nb: int) returns (newp: int)
      requires Valid() && p in ck && ck[p].kind == Live && MIN_CHUNK_SIZE <= nb <= ck[p].size && nb % 16 == 0
      modifies this`mem, this`smallmap, this`treemap, this`bins, this`ck, this`dv, this`dvsize, this`top, this`topsize
      ensures Valid() && newp == p && Resized(old(mem), old(ck), mem, ck, p, nb)
    {
      hide Loose, Settled, Resized, Freed, RunBase, Cut;
      ReallocReads(mem, smallmap, treemap, bins, ck, segs, leastAddr, p, dv, dvsize, top, topsize);
      var oldsize := ChunkSize(Rd(mem, p + HEAD));
      var rsize := oldsize - nb;
      if rsize >= MIN_CHUNK_SIZE {
        SplitOff(p, nb, rsize);
      } else {
        ResizedNot(mem, ck, p, nb);
      }
      newp := p;
    }

    /** try_realloc_chunk, extending into the top. */
    method ReallocTop(p: int, nb: int) returns (newp: int)
      requires Valid() && p in ck && ck[p].kind == Live && ck[p].size < nb < W64 && nb % 16 == 0
      requires top == p + ck[p].size
      modifies this`mem, this`ck, this`top, this`topsize
      ensures Valid() && (newp == p || newp == 0)
      ensures newp == 0 <==> old(ck[p].size) + old(topsize) <= nb
      ensures newp == 0 ==> unchanged(this)
      ensures newp != 0 ==> Resized(old(mem), old(ck), mem, ck, p, nb)
    {
      hide Loose, Settled, Resized, SetInuse, PayloadsKept, GrowTop, LiveOf;
      BlockSize(mem, smallmap, treemap, bins, ck, segs, leastAddr, p, dv, dvsize, top, topsize);
      newp := 0;
      var oldsize := ChunkSize(Rd(mem, p + HEAD));
      if oldsize + topsize > nb {
        var newsize := oldsize + topsize;
        var newtopsize := newsize - nb;
        TopGrowStep(mem, smallmap, treemap, bins, ck, segs, leastAddr, dv, dvsize, top, topsize, p, nb, newtopsize);
        ghost var l, c := mem, ck;
        var newtop := p + nb;
        mem := SetInuse(mem, p, nb);
        mem := mem[newtop + HEAD := newtopsize + PINUSE_BIT];
        top := newtop;
        topsize := newtopsize;
        ck := GrowTop(c, p, nb);
        ResizedOnce(l, c, mem, ck, p, nb);
        newp := p;
      }
    }

    /** try_realloc_chunk, extending into the designated victim. */
    method ReallocDv(p: int, nb: int) returns (newp: int)
      requires Valid() && p in ck && ck[p].kind == Live && ck[p].size < nb < W64 && nb % 16 == 0 && dv == p + ck[p].size
      requires dv != top
      modifies this`mem, this`ck, this`dv, this`dvsize
      ensures Valid() && (newp == p || newp == 0)
      ensures newp == 0 <==> old(ck[p].size) + old(dvsize) < nb
      ensures newp == 0 ==> unchanged(this)
      ensures newp != 0 ==> Resized(old(mem), old(ck), mem, ck, p, nb)
    {
      hide Loose, Settled, Resized, SetInuse, PayloadsKept, JoinNext, Regrown, LiveOf, SetSizeOfFree;
      BlockSize(mem, smallmap, treemap, bins, ck, segs, leastAddr, p, dv, dvsize, top, topsize);
      DvFree(mem, smallmap, treemap, bins, ck, segs, leastAddr, p, dv, dvsize, top, topsize);
      newp := 0;
      ghost var l, c := mem, ck;
      var oldsize := ChunkSize(Rd(mem, p + HEAD));
      var dvs := dvsize;
      if oldsize + dvs >= nb {
        var dsize := oldsize + dvs - nb;
        if dsize >= MIN_CHUNK_SIZE {
          GrowDv(mem, smallmap, treemap, bins, ck, segs, leastAddr, dv, dvsize, top, topsize, p, nb, dsize);
          var r := p + nb;
          var n := r + dsize;
          mem := SetInuse(mem, p, nb);
          mem := SetSizeOfFree(mem, r, dsize);
          mem := mem[n + HEAD := ClearPinuse(Rd(mem, n + HEAD))];
          dvsize := dsize;
          dv := r;
          ck := Regrown(c, p, nb);
        } else {
          var newsize := oldsize + dvs;
          GrowStep(mem, smallmap, treemap, bins, ck, segs, leastAddr, bins.sz, dv, dvsize, top, topsize, 0, 0, p,
                   newsize);
          mem := SetInuse(mem, p, newsize);
          dvsize := 0;
          dv := 0;
          ck := JoinNext(c, p);
          ResizedOnce(l, c, mem, ck, p, nb);
        }
        newp := p;
      }
    }

    /** try_realloc_chunk, extending into a binned chunk. */
    method ReallocFree(p: int, nb: int) returns (newp: int)
      requires CanGrow(ck, p) && ck[p].size < nb < W64 && nb % 16 == 0 && dv != p + ck[p].size
      requires Valid()
      modifies this`mem, this`smallmap, this`treemap, this`bins, this`ck, this`dv, this`dvsize, this`top, this`topsize
      ensures Valid() && (newp == p || newp == 0)
      ensures newp == 0 <==> NextTooSmall(old(ck), p, nb)
      ensures newp == 0 ==> unchanged(this)
      ensures newp != 0 ==> Resized(old(mem), old(ck), mem, ck, p, nb)
    {
      hide Loose, Held, Settled, Resized, SetInuse, PayloadsKept, IdleKept, JoinNext, LiveOf, ChunkSize, Sixteens,
           Splits;
      BinnedNext(mem, smallmap, treemap, bins, ck, segs, leastAddr, p, dv, dvsize, top, topsize);
      newp := 0;
      ghost var l, c, z0 := mem, ck, bins.sz;
      var oldsize := ChunkSize(Rd(mem, p + HEAD));
      var next := p + oldsize;
      var nextsize := ChunkSize(Rd(mem, next + HEAD));
      if oldsize + nextsize >= nb {
        var rsize := oldsize + nextsize - nb;
        if rsize >= MIN_CHUNK_SIZE { SplitsAt(mem, ck, bins.sz, p, nb, rsize); }
        UnlinkChunk(next, nextsize);
        if rsize < MIN_CHUNK_SIZE {
          TakeNext(l, p, nb, oldsize + nextsize, z0);
        } else {
          SplitGrown(l, p, nb, rsize, z0);
        }
        newp := p;
      }
    }

    /** One end of that: the block takes in the chunk after it, which has just left its bin, as a whole. */
    method TakeNext(ghost l: Mem, p: int, nb: int, newsize: int, ghost z0: map<int, int>)
      requires CanGrow(ck, p) && newsize == ck[p].size + ck[p + ck[p].size].size
      requires ck[p].size <= nb <= newsize < nb + MIN_CHUNK_SIZE
      requires PayloadsKept(l, mem, ck) && bins.sz == z0 - {p + ck[p].size} && dv != p + ck[p].size
      requires Phase() && Settled(z0, ck, segs, dv, dvsize, top, topsize)
      modifies this`mem, this`ck
      ensures Valid() && Resized(l, old(ck), mem, ck, p, nb)
    {
      hide Loose, Settled, Resized, SetInuse, PayloadsKept, JoinNext, LiveOf;
      ghost var m, c := mem, ck;
      GrowStep(m, smallmap, treemap, bins, c, segs, leastAddr, z0, dv, dvsize, top, topsize, dv, dvsize, p, newsize);
      mem := SetInuse(mem, p, newsize);
      ck := JoinNext(c, p);
      ResizedLater(l, m, mem, c, ck, p, nb);
    }

    /** The other end: the block takes in the chunk after it, which has just left its bin, and gives back the rest. */
    method SplitGrown(ghost l: Mem, p: int, nb: int, rsize: int, ghost z0: map<int, int>)
      requires Splits(ck, p, nb, rsize) && PayloadsKept(l, mem, ck)
      requires bins.sz == z0 - {p + ck[p].size} && dv != p + ck[p].size
      requires Phase() && Settled(z0, ck, segs, dv, dvsize, top, topsize)
      modifies this`mem, this`smallmap, this`treemap, this`bins, this`ck, this`dv, this`dvsize, this`top, this`topsize
      ensures Valid() && Resized(l, old(ck), mem, ck, p, nb)
    {
      hide Loose, Settled, Resized, SetInuse, PayloadsKept, JoinNext, LiveOf, BlocksKept, SetBoth, Freed, RunBase, Cut;
      ghost var m, c := mem, ck;
      ghost var g := JoinNext(c, p);
      ghost var d := CutOf(g, p, nb);
      GrowCut(m, smallmap, treemap, bins, c, g, d, segs, leastAddr, z0, dv, dvsize, top, topsize, p, nb, rsize);
      BothIs(m, p, nb, rsize);
      var r := p + nb;
      mem := SetInuse(mem, p, nb);
      mem := SetInuse(mem, r, rsize);
      ghost var n := mem;
      ck := d;
      DisposeChunk(r, rsize);
      StillThere(d, ck, p, r);
      ResizedTwice(l, m, SetInuse(m, p, nb + rsize), n, mem, c, g, d, ck, p, nb, r, rsize);
    }

    /** try_realloc_chunk */
    method TryReallocChunk(p: int, nb: int) returns (newp: int)
      requires Valid() && p in ck && ck[p].kind == Live && MIN_CHUNK_SIZE <= nb < W64 && nb % 16 == 0
      modifies this`mem, this`smallmap, this`treemap, this`bins, this`ck, this`dv, this`dvsize, this`top, this`topsize
      ensures Valid() && (newp == p || newp == 0)
      ensures newp == 0 <==> Stuck(old(ck), p, nb)
      ensures newp == 0 ==> unchanged(this)
      ensures newp != 0 ==> Resized(old(mem), old(ck), mem, ck, p, nb)
    {
      hide Loose, Held, Settled, Resized;
      ReallocReads(mem, smallmap, treemap, bins, ck, segs, leastAddr, p, dv, dvsize, top, topsize);
      newp := 0;
      var oldsize := ChunkSize(Rd(mem, p + HEAD));
      var next := p + oldsize;
      if p >= leastAddr && IsInUse(Rd(mem, p + HEAD)) && p < next && PrevInUse(Rd(mem, next + HEAD)) {
        if oldsize >= nb {
          newp := ReallocShrink(p, nb);
        } else if next == top {
          newp := ReallocTop(p, nb);
        } else if next == dv {
          newp := ReallocDv(p, nb);
        } else if !CurInUse(Rd(mem, next + HEAD)) {
          newp := ReallocFree(p, nb);
        }
      } else {
        assert false;  // USAGE_ERROR_ACTION
      }
    }

    /** One word of the block `a` is written. */
    method WriteWord(w: int, v: int, ghost a: int)
      requires Owned(ck, a, w)
      requires Phase()
      modifies this`mem
      ensures Phase() && mem == old(mem)[w := v] && BlocksKept(old(mem), mem, LiveOf(ck) - {a})
    {
      hide Loose, LiveOf, BlocksKept, Owned;
      UserWrite(mem, smallmap, treemap, bins, ck, segs, leastAddr, a, w, v);
      mem := mem[w := v];
    }

    /** memcpy's whole words: `k` of them, into the block `a`. */
    method CopyWords(dst: int, src: int, k: nat, ghost a: int)
      requires BlockRoom(ck, a, dst, 8 * k)
      requires src + 8 * k + 8 <= dst || dst + 8 * k + 8 <= src
      requires Phase()
      modifies this`mem
      ensures Phase() && BlocksKept(old(mem), mem, LiveOf(ck) - {a})
      ensures forall j | 0 <= j < k :: Rd(mem, dst + 8 * j) == Rd(old(mem), src + 8 * j)
      ensures Rd(mem, src + 8 * k) == Rd(old(mem), src + 8 * k)
    {
      hide Loose, LiveOf, BlocksKept, Owned;
      NothingChanged(mem, LiveOf(ck) - {a});
      var i := 0;
      while i < k
        invariant 0 <= i <= k && Phase() && BlocksKept(old(mem), mem, LiveOf(ck) - {a})
        invariant forall j | 0 <= j < i :: Rd(mem, dst + 8 * j) == Rd(old(mem), src + 8 * j)
        invariant forall w | src <= w <= src + 8 * k :: Rd(mem, w) == Rd(old(mem), w)
      {
        ghost var m := mem;
        OwnedIs(ck, a, dst + 8 * i);
        WriteWord(dst + 8 * i, Rd(mem, src + 8 * i), a);
        BlocksTwice(old(mem), m, mem, LiveOf(ck) - {a});
        i := i + 1;
      }
    }

    /** memcpy of `n` bytes into the block `a`: whole words, and then the low bytes of the word in which the range
        ends. */
    method CopyBytes(dst: int, src: int, n: int, ghost a: int)
      requires BlockRoom(ck, a, dst, n) && n >= 0
      requires src + n + 8 <= dst || dst + n + 8 <= src
      requires Phase()
      modifies this`mem
      ensures Phase() && BlocksKept(old(mem), mem, LiveOf(ck) - {a}) && Copied(old(mem), src, mem, dst, n)
    {
      hide Loose, LiveOf, BlocksKept, Owned, LowBytes, Overwritten, Copied;
      var k := n / 8;
      var d, s := dst + 8 * k, src + 8 * k;
      CopyWords(dst, src, k, a);
      ghost var m := mem;
      if n % 8 > 0 {
        OwnedIs(ck, a, d);
        OverwrittenLow(Rd(mem, d), Rd(mem, s), n % 8);
        WriteWord(d, Overwritten(Rd(mem, d), Rd(mem, s), n % 8), a);
        BlocksTwice(old(mem), m, mem, LiveOf(ck) - {a});
      } else {
        NoLowBytes(Rd(mem, d), Rd(mem, s));
      }
      CopiedAll(old(mem), src, m, mem, dst, n);
    }

    /** dlrealloc; `mp` and `unmaps` are the system's answers. */
    method Dlrealloc(from: int, bytes: int, mp: int, unmaps: int -> bool) returns (r: int)
      requires Valid() && Accounted() && 0 <= bytes < W64 && 0 <= footprintLimit < W64
      requires (from != 0 ==> from - 16 in ck && ck[from - 16].kind == Live)
      requires mp != CMFAIL && AllocSize(MallocSize(bytes)) > MallocSize(bytes) ==>
        Mapped(segs, mp, AllocSize(MallocSize(bytes)))
      modifies this
      ensures Valid() && Accounted()
      ensures r == 0 <==>
        if from == 0 then old(Refuses(bytes, mp))
        else bytes >= MAX_REQUEST || (Stuck(old(ck), from - 16, RequestSize(bytes)) && old(Refuses(bytes, mp)))
      ensures r == 0 ==> unchanged(this)
      ensures r != 0 && (from == 0 || Stuck(old(ck), from - 16, RequestSize(bytes))) ==>
        WasSited(old(mem), old(ck), old(segs), old(dv), old(dvsize), old(top), old(topsize), MallocSize(bytes), mp,
                 r - 16)
      ensures r != 0 && from == 0 ==> Granted(old(mem), old(ck), mem, ck, r, MallocSize(bytes))
      ensures r != 0 && from != 0 ==> Reallocated(old(mem), old(ck), mem, ck, from, r, bytes)
      ensures from != 0 && bytes < MAX_REQUEST && !Stuck(old(ck), from - 16, RequestSize(bytes)) ==>
        r == from && segs == old(segs)
    {
      hide Sited, Carved, Joined, Picked, Loose, Settled, Resized, Granted, MallocSize, RequestSize, AllocSize, Mapped,
           Total, LiveOf, BlocksKept,
           Reallocated, Stuck, Freed, RunBase, SegTotal;
      r := 0;
      if from == 0 {
        r := Dlmalloc(bytes, mp);
      } else if bytes < MAX_REQUEST {
        var nb := RequestSize(bytes);
        RequestRoom(bytes);
        var oldp := from - 16;
        BlockSize(mem, smallmap, treemap, bins, ck, segs, leastAddr, oldp, dv, dvsize, top, topsize);
        var newp := TryReallocChunk(oldp, nb);
        if newp != 0 {
          ResizedInPlace(old(mem), old(ck), mem, ck, oldp, bytes);
          r := newp + 16;
        } else {
          r := MoveBlock(from, bytes, mp, unmaps);
        }
      }
    }

    /** The end of dlrealloc: a new block, to which the contents move. */
    method MoveBlock(from: int, bytes: int, mp: int, unmaps: int -> bool) returns (r: int)
      requires Valid() && Accounted() && 0 <= bytes < MAX_REQUEST && 0 <= footprintLimit < W64 && from - 16 in ck
      requires ck[from - 16].kind == Live && from != 0
      requires mp != CMFAIL && AllocSize(MallocSize(bytes)) > MallocSize(bytes) ==>
        Mapped(segs, mp, AllocSize(MallocSize(bytes)))
      modifies this
      ensures Valid() && Accounted()
      ensures r == 0 <==> old(Refuses(bytes, mp))
      ensures r == 0 ==> unchanged(this)
      ensures r != 0 ==> WasSited(old(mem), old(ck), old(segs), old(dv), old(dvsize), old(top), old(topsize),
                                   MallocSize(bytes), mp, r - 16)
      ensures r != 0 ==> Reallocated(old(mem), old(ck), mem, ck, from, r, bytes)
    {
      hide Sited, OnceMerged, Carved, Joined, Picked, Loose, Settled, Granted, MallocSize, RequestSize, AllocSize,
           Mapped, Total, LiveOf, BlocksKept, Reallocated,
           Freed, RunBase, SegTotal;
      ghost var m, c := mem, ck;
      RequestRoom(bytes);
      r := Dlmalloc(bytes, mp);
      if r != 0 {
        ghost var m1, c1 := mem, ck;
        assert WasSited(old(mem), old(ck), old(segs), old(dv), old(dvsize), old(top), old(topsize),
                         MallocSize(bytes), mp, r - 16);
        GrantedBlocks(m, c, m1, c1, r, MallocSize(bytes), from - 16);
        CopyApart(mem, smallmap, treemap, bins, ck, segs, leastAddr, from - 16, r - 16,
                  Min(c[from - 16].size - 8, bytes));
        var oc := ChunkSize(Rd(mem, from - 16 + HEAD)) - 8;
        CopyBytes(r, from, if oc < bytes then oc else bytes, r - 16);
        ghost var m2 := mem;
        Dlfree(from, unmaps);
        BlockMoved(m, c, m1, c1, m2, mem, ck, from, r, bytes, Min(c[from - 16].size - 8, bytes));
      }
    }

    // ----- memalign

    /** Giving back the first `lead` bytes of a block. */
    method LeadOff(p: int, lead: int) returns (newp: int)
      requires Valid() && CanCut(ck, p, lead)
      modifies this`mem, this`smallmap, this`treemap, this`bins, this`ck, this`dv, this`dvsize, this`top, this`topsize
      ensures Valid() && newp == p + lead && Led(old(mem), old(ck), mem, ck, p, newp)
    {
      hide Loose, Settled, LiveOf, BlocksKept, PayloadsKept, Freed, RunBase, SetBoth, SetInuse, Led, Cut, CutInto;
      ghost var l, c, d := mem, ck, Cut(ck, p, lead);
      BlockSize(mem, smallmap, treemap, bins, ck, segs, leastAddr, p, dv, dvsize, top, topsize);
      newp := p + lead;
      var newsize := ChunkSize(Rd(mem, p + HEAD)) - lead;
      CutStep(mem, smallmap, treemap, bins, ck, d, segs, leastAddr, dv, dvsize, top, topsize, p, lead, newsize);
      BothSwapped(mem, p, lead, newsize);
      mem := SetInuse(mem, newp, newsize);
      mem := SetInuse(mem, p, lead);
      ghost var n := mem;
      ck := d;
      CutParts(c, d, p, lead);
      DisposeChunk(p, lead);
      LedOff(l, n, mem, c, d, ck, p, lead);
    }

    /** The end of memalign: leading space and spare space are given back. */
    method AlignBlock(p0: int, nb: int, alignment: int) returns (p: int)
      requires Valid() && p0 in ck && ck[p0].kind == Live && nb >= MIN_CHUNK_SIZE && nb % 16 == 0
      requires alignment >= MIN_CHUNK_SIZE && alignment % 16 == 0 && ck[p0].size >= nb + alignment + MIN_CHUNK_SIZE
      modifies this`mem, this`smallmap, this`treemap, this`bins, this`ck, this`dv, this`dvsize, this`top, this`topsize
      ensures Valid()
      ensures p0 <= p < p0 + old(ck[p0].size) && (p + 16) % alignment == 0 && FirstSpot(p0, p, alignment)
      ensures Ends(old(mem), old(ck), mem, ck, p0, p, nb)
    {
      hide Loose, Settled, Led, Resized, Lead, RoundUp, LiveOf, Ends, GivenBack, FirstSpot;
      LeadFirst(p0, alignment);
      BlockSize(mem, smallmap, treemap, bins, ck, segs, leastAddr, p0, dv, dvsize, top, topsize);
      LeadOk(p0, alignment, ck[p0].size, nb);
      p := p0;
      if (p + 16) % alignment != 0 {
        var br := RoundUp(p + 16, alignment) - 16;
        var pos := if br - p >= MIN_CHUNK_SIZE then br else br + alignment;
        LeadIs(p, alignment);
        p := LeadOff(p, pos - p);
      }
      ghost var m2, d := mem, ck;
      assert p in d && d[p].kind == Live && d[p].size == p0 + old(ck[p0].size) - p by {
        LedSize(old(mem), old(ck), m2, d, p0, p);
      }
      BlockSize(mem, smallmap, treemap, bins, ck, segs, leastAddr, p, dv, dvsize, top, topsize);
      var size := ChunkSize(Rd(mem, p + HEAD));
      if size > nb + MIN_CHUNK_SIZE {
        SplitOff(p, nb, size - nb);
      }
      EndsIs(old(mem), old(ck), m2, d, mem, ck, p0, p, nb);
    }

    /** The rounding of an alignment up to a power of two. */
    method RoundAlignment(alignment0: int) returns (alignment: nat)
      requires 0 <= alignment0 <= 0x8000_0000_0000_0000
      ensures alignment == RoundedAlignment(alignment0)
    {
      hide IsPow2, NextDouble;
      RoundedMin(alignment0);
      alignment := if alignment0 < MIN_CHUNK_SIZE then MIN_CHUNK_SIZE else alignment0;
      if !IsPow2(alignment) {
        ThirtyTwo();
        ghost var j := 5;
        var a: nat := 16 * 2;
        while a < alignment
          invariant a == Pow2(j) && NextDouble(alignment, a) == RoundedAlignment(alignment)
          decreases alignment - a
        {
          DoubledOnce(alignment, a, j);
          a := (2 * a) % W64;
          j := j + 1;
        }
        NextDoubleEnd(alignment, a);
        alignment := a;
      } else {
        PowerKept(alignment);
      }
    }

    /** internal_memalign. The alignments that its rounding loop would never reach are excluded (DoublingReaches). */
    method InternalMemalign(alignment0: int, bytes: int, mp: int) returns (r: int)
      requires Valid() && Accounted() && 0 <= bytes < W64 && 0 <= footprintLimit < W64
      requires 0 <= alignment0 <= 0x8000_0000_0000_0000
      requires var nb := MallocSize(MemalignRequest(RoundedAlignment(alignment0), bytes));
        mp != CMFAIL && AllocSize(nb) > nb ==> Mapped(segs, mp, AllocSize(nb))
      modifies this
      ensures Valid() && Accounted()
      ensures var a := RoundedAlignment(alignment0);
        r == 0 <==> bytes >= MAX_REQUEST - a || old(Refuses(MemalignRequest(a, bytes), mp))
      ensures r == 0 ==> unchanged(this)
      ensures var a := RoundedAlignment(alignment0);
        r != 0 ==> CutFrom(old(mem), old(ck), old(segs), old(dv), old(dvsize), old(top), old(topsize),
                           MallocSize(MemalignRequest(a, bytes)), mp, segs, r - 16, a)
      ensures r != 0 ==> AlignedGrant(old(mem), old(ck), mem, ck, r, RequestSize(bytes), RoundedAlignment(alignment0))
    {
      hide Sited, Carved, Joined, Picked, FirstSpot, Loose, Settled, Granted, MallocSize, RequestSize, AllocSize,
           Mapped, Total, LiveOf, SegTotal, Ends,
           AlignedGrant, RoundedAlignment, MemalignRequest, Shape;
      r := 0;
      var alignment := RoundAlignment(alignment0);
      ghost var k := RoundedIs(alignment0);
      if bytes < MAX_REQUEST - alignment {
        var nb := RequestSize(bytes);
        RequestRoom(bytes);
        MemalignRoom(alignment, bytes);
        var req := MemalignRequest(alignment, bytes);
        var p := Dlmalloc(req, mp);
        if p != 0 {
          ghost var m1, c := mem, ck;
          GrantedChunk(old(mem), old(ck), m1, c, p, MallocSize(req));
          GrantedNonNull(old(mem), old(ck), m1, c, p, MallocSize(req));
          assert Shape(c) by { LooseParts(mem, smallmap, treemap, bins, ck, segs, leastAddr); }
          var q := AlignBlock(p - 16, nb, alignment);
          InsideNew(old(mem), old(ck), m1, c, p, MallocSize(req), q);
          EndsDone(old(mem), old(ck), m1, c, mem, ck, p, MallocSize(req), q, nb, alignment);
          r := q + 16;
        }
      }
    }

    // ----- Freeing the blocks that an array lists

    /** The loop body of internal_bulk_free, at entry `i`. */
    method FreeEntry(a: array<int>, i: nat, ghost l: Mem, ghost goal: Chunks)
      requires i < a.Length && Ahead(ck, a[i..], goal) && BlocksKept(l, mem, LiveOf(goal))
      requires Valid()
      modifies a, this`mem, this`smallmap, this`treemap, this`bins, this`ck, this`dv, this`dvsize, this`top,
               this`topsize
      ensures Valid() && Ahead(ck, a[i + 1..], goal) && BlocksKept(l, mem, LiveOf(goal))
      ensures a[i] == 0 && forall j | 0 <= j < i :: a[j] == old(a[j])
    {
      hide Loose, Settled, LiveOf, BlocksKept, SetInuse, Merge, Ahead, AtRest, LayoutOk, Free1, Freed, RunBase;
      ghost var s := a[i..];
      if a[i] != 0 {
        var p := a[i] - 16;
        NextLive(ck, s, goal);
        BulkReads(mem, smallmap, treemap, bins, ck, segs, leastAddr, p, dv, dvsize, top, topsize);
        var psize := ChunkSize(Rd(mem, p + HEAD));
        a[i] := 0;
        if p >= leastAddr && IsInUse(Rd(mem, p + HEAD)) {
          var next := p + psize;
          if i + 1 < a.Length && a[i + 1] == next + 16 {
            NeighboursMerge(ck, s, goal);
            BulkReads(mem, smallmap, treemap, bins, ck, segs, leastAddr, next, dv, dvsize, top, topsize);
            var newsize := ChunkSize(Rd(mem, next + HEAD)) + psize;
            EntryMerged(l, mem, smallmap, treemap, bins, ck, segs, leastAddr, dv, dvsize, top, topsize, s, goal,
                        newsize);
            mem := SetInuse(mem, p, newsize);
            ck := Merge(ck, p);
            a[i + 1] := p + 16;
            assert a[i + 1..] == Passed(s);
          } else {
            ghost var m, c := mem, ck;
            DisposeChunk(p, psize);
            assert ck == Free1(c, p) by { Free1Freed(c, p); }
            EntryDisposed(l, m, mem, c, ck, segs, s, goal);
            assert a[i + 1..] == s[1..];
          }
        } else {
          assert false;  // CORRUPTION_ERROR_ACTION
        }
      } else {
        SkipNull(ck, s, goal);
        assert a[i + 1..] == s[1..];
      }
    }

    /** internal_bulk_free */
    method InternalBulkFree(a: array<int>, unmaps: int -> bool) returns (unfreed: nat)
      requires AllLive(ck, ListedChunks(a[..])) && Accounted()
      requires Valid()
      modifies a, this`mem, this`smallmap, this`treemap, this`bins, this`ck, this`segs, this`dv, this`dvsize,
               this`footprint, this`releaseChecks,
               this`top, this`topsize, this`trimCheck
      ensures Valid() && Accounted() && unfreed == 0 && forall i | 0 <= i < a.Length :: a[i] == 0
      ensures LiveOf(ck) == LiveOf(old(ck)) - (set x | x in ListedChunks(old(a[..])))
      ensures BlocksKept(old(mem), mem, LiveOf(ck))
      ensures segs == old(segs) ==> ck == FreedEach(old(ck), ListedChunks(old(a[..])))
      ensures if old(segs) == [] then segs == []
        else OnceMerged(FreedEach(old(ck), ListedChunks(old(a[..]))), top, false, old(segs), old(topsize),
                        old(trimCheck), old(releaseChecks), unmaps, segs, topsize, trimCheck, releaseChecks)
    {
      hide Loose, Settled, LiveOf, BlocksKept, Ahead, AtRest, LayoutOk, FreedEach, SegTotal, Trimmed, SweptList;
      unfreed := 0;
      ghost var l, s := mem, a[..];
      ghost var goal := FreedEach(ck, ListedChunks(s));
      AheadAll(ck, s);
      assert LayoutOk(ck, segs) by { LooseParts(mem, smallmap, treemap, bins, ck, segs, leastAddr); }
      GoalIs(bins.sz, ck, segs, dv, dvsize, top, topsize, s, goal);
      SameBlocks(mem, goal);
      assert a[0..] == s;
      var i := 0;
      while i < a.Length
        invariant 0 <= i <= a.Length && Valid() && segs == old(segs) && footprint == old(footprint)
        invariant maxFootprint == old(maxFootprint)
        invariant trimCheck == old(trimCheck) && releaseChecks == old(releaseChecks)
        invariant Ahead(ck, a[i..], goal) && BlocksKept(l, mem, LiveOf(goal))
        invariant forall j | 0 <= j < i :: a[j] == 0
      {
        FreeEntry(a, i, l, goal);
        i := i + 1;
      }
      assert a[i..] == [];
      AheadNone(ck, goal);
      if segs != [] { SettledTop(bins.sz, ck, segs, dv, dvsize, top, topsize); }
      if topsize > trimCheck {
        ghost var m := mem;
        var trimmed := SysTrim(0, unmaps);
        BlocksTwice(l, m, mem, LiveOf(goal));
      }
    }

    // ----- Statistics

    /** The inner loop of internal_malloc_stats, over segment `i`, whose record is at `s`. */
    method SegmentUse(s: int, ghost i: nat, used0: int) returns (used: int)
      requires i < |segs| && s == segs[i].rec && Standing(ck, segs, i, segs[i].base)
      requires CountedSoFar(ck, segs, i, segs[i].base, used0)
      requires Valid()
      ensures CountedSoFar(ck, segs, i, SegmentEnd(segs, i), used)
    {
      hide Loose, Settled, Standing, CountedSoFar, TourRead, SegmentEnd, IsInUse;
      TourSegmentReads(mem, smallmap, treemap, bins, ck, segs, leastAddr, i);
      used := used0;
      var base, size := Rd(mem, s), Rd(mem, s + SEG_SIZE);
      var q, sc := base + AlignOffset(base + 16), s - 16;
      while true
        invariant Standing(ck, segs, i, q) && CountedSoFar(ck, segs, i, q, used)
        decreases segs[i].base + segs[i].size - q
      {
        TourStep(mem, smallmap, treemap, bins, ck, segs, leastAddr, dv, dvsize, top, topsize, i, q, used);
        TourReadIs(mem, ck, segs, i, q, top);
        if !(q >= base && q < base + size && q != top && Rd(mem, q + HEAD) != FENCEPOST_HEAD) {
          break;
        }
        if IsInUse(Rd(mem, q + HEAD)) && q != sc {
          used := used + ChunkSize(Rd(mem, q + HEAD));
        }
        q := q + ChunkSize(Rd(mem, q + HEAD));
      }
    }

    /** internal_malloc_stats */
    method InternalMallocStats() returns (peakSystemBytes: int, systemBytes: int, used: int)
      requires Valid() && Accounted()
      ensures used == Total(LiveOf(ck)) && (Counted() ==> used == inUseBytes)
      ensures systemBytes == footprint == SegTotal(segs)
      ensures peakSystemBytes == (if segs == [] then 0 else maxFootprint) >= systemBytes
    {
      hide Loose, Settled, Standing, CountedSoFar, SegmentEnd, Total, LiveOf, SegTotal;
      SystemReady(mem, smallmap, treemap, bins, ck, segs, leastAddr, dv, dvsize, top, topsize);
      TotalNone();
      peakSystemBytes, systemBytes, used := 0, 0, 0;
      if top != 0 {
        peakSystemBytes, systemBytes := maxFootprint, footprint;
        TourBegins(mem, smallmap, treemap, bins, ck, segs, leastAddr);
        var s := SEG;
        ghost var i := 0;
        while s != 0
          invariant 0 <= i <= |segs| && (s != 0 <==> i < |segs|)
          invariant s != 0 ==>
            s == segs[i].rec && Standing(ck, segs, i, segs[i].base) && CountedSoFar(ck, segs, i, segs[i].base, used)
          invariant s == 0 ==> used == Total(LiveOf(ck))
          decreases |segs| - i
        {
          used := SegmentUse(s, i, used);
          TourSegment(mem, smallmap, treemap, bins, ck, segs, leastAddr, i, used);
          s := Rd(mem, s + SEG_NEXT);
          i := i + 1;
        }
      }
    }
  }
}
