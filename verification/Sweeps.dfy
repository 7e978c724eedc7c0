/** Which segments go when the system is offered the unused ones, and what trimming leaves. */
module Sweeps {
  import opened Memory
  import opened Bits
  import opened Layout
  import opened Bins
  import opened Segments
  import opened SegmentGrowth
  import opened Growth
  import opened Invariant
  import opened SystemSteps
  import opened SystemSizes

  /** What is left of the older segments `rest`: those that hold something, or that the system does not take back. */
  ghost function Sweep(ck: Chunks, rest: seq<Segment>, unmaps: int -> bool): seq<Segment> {
    if rest == [] then []
    else if UnusedIn(ck, rest[0]) && unmaps(rest[0].base) then Sweep(ck, rest[1..], unmaps)
    else [rest[0]] + Sweep(ck, rest[1..], unmaps)
  }

  /** The count of large frees until segments are next looked through starts at their number, or higher. */
  predicate ChecksReset(segments: nat, checks: int) {
    && checks >= segments - 1 && checks >= MAX_RELEASE_CHECK_RATE
    && (checks == segments - 1 || checks == MAX_RELEASE_CHECK_RATE)
  }

  /** What is left of all segments, of which the newest stays. */
  ghost function SweptList(ck: Chunks, segs: seq<Segment>, unmaps: int -> bool): seq<Segment> {
    if segs == [] then [] else [segs[0]] + Sweep(ck, segs[1..], unmaps)
  }

  /** With the segments before the `k`th done, the others being as at first, the outcome will be that for `segs0`. */
  ghost predicate Sweeping(ck0: Chunks, segs0: seq<Segment>, unmaps: int -> bool, ck: Chunks, segs: seq<Segment>,
                           k: nat) {
    && 1 <= k <= |segs| && segs[..k] + Sweep(ck0, segs[k..], unmaps) == SweptList(ck0, segs0, unmaps)
    && forall i | k <= i < |segs| :: UnusedIn(ck, segs[i]) <==> UnusedIn(ck0, segs[i])
  }

  lemma SweepBegins(ck: Chunks, segs: seq<Segment>, unmaps: int -> bool)
    requires segs != []
    ensures Sweeping(ck, segs, unmaps, ck, segs, 1)
  {
  }

  lemma SweepStays(ck0: Chunks, segs0: seq<Segment>, unmaps: int -> bool, ck: Chunks, segs: seq<Segment>, k: nat)
    requires Sweeping(ck0, segs0, unmaps, ck, segs, k) && k < |segs|
    requires !(unmaps(segs[k].base) && Unused(ck, segs, k))
    ensures Sweeping(ck0, segs0, unmaps, ck, segs, k + 1)
  {
    hide UnusedIn, SweptList;
    assert segs[k..][0] == segs[k] && segs[k..][1..] == segs[k + 1..];
    assert segs[..k + 1] == segs[..k] + [segs[k]];
    assert segs[..k] + ([segs[k]] + Sweep(ck0, segs[k + 1..], unmaps))
        == segs[..k] + [segs[k]] + Sweep(ck0, segs[k + 1..], unmaps);
  }

  lemma SweepGoes(ck0: Chunks, segs0: seq<Segment>, unmaps: int -> bool, ck: Chunks, segs: seq<Segment>, k: nat,
                  d: Chunks, t: seq<Segment>)
    requires Sweeping(ck0, segs0, unmaps, ck, segs, k) && k < |segs| && unmaps(segs[k].base) && Unused(ck, segs, k)
    requires SegmentGone(ck, segs, d, t, k) && SegmentsApart(segs) && Regions(segs)
    ensures Sweeping(ck0, segs0, unmaps, d, t, k)
  {
    hide SweptList, Regions;
    assert segs[k..][0] == segs[k] && segs[k..][1..] == segs[k + 1..];
    assert t[..k] == segs[..k] && t[k..] == segs[k + 1..];
    forall i | k <= i < |t| ensures UnusedIn(d, t[i]) <==> UnusedIn(ck0, t[i]) {
      RemovedAt(segs, k, i);
      RegionSize(segs, i + 1);
      RegionSize(segs, k);
      OtherUnused(ck, segs[k], segs[i + 1]);
    }
  }

  /** The same, in a heap. */
  lemma SegmentTaken(m: Mem, smallmap: bv32, treemap: bv32, b: Bins, ck: Chunks, segs: seq<Segment>, least: int,
                     ck0: Chunks, segs0: seq<Segment>, unmaps: int -> bool, k: nat, d: Chunks, t: seq<Segment>)
    requires Sweeping(ck0, segs0, unmaps, ck, segs, k) && k < |segs| && unmaps(segs[k].base) && Unused(ck, segs, k)
    requires SegmentGone(ck, segs, d, t, k)
    requires Loose(m, smallmap, treemap, b, ck, segs, least)
    ensures Sweeping(ck0, segs0, unmaps, d, t, k)
  {
    hide Loose, Sweeping, Unused, SegmentGone, LayoutOk, Regions, SegmentsApart;
    LooseParts(m, smallmap, treemap, b, ck, segs, least);
    LayoutApart(ck, segs);
    SweepGoes(ck0, segs0, unmaps, ck, segs, k, d, t);
  }

  /** Dropping a segment leaves the others as they are. */
  lemma OtherUnused(ck: Chunks, s: Segment, u: Segment)
    requires s.base + s.size <= u.base || u.base + u.size <= s.base
    requires u.size > 0
    ensures UnusedIn(Drop(ck, s.base, s.base + s.size), u) <==> UnusedIn(ck, u)
  {
  }

  lemma SweepEnds(ck0: Chunks, segs0: seq<Segment>, unmaps: int -> bool, ck: Chunks, segs: seq<Segment>)
    requires Sweeping(ck0, segs0, unmaps, ck, segs, |segs|)
    ensures segs == SweptList(ck0, segs0, unmaps)
  {
    hide UnusedIn, SweptList;
    assert segs[..|segs|] == segs && segs[|segs|..] == [];
  }

  // ----- Trimming

  /** The newest segment without its last `cut` bytes. */
  ghost function Shortened(segs: seq<Segment>, cut: int): seq<Segment> {
    if segs == [] then [] else segs[0 := Segment(segs[0].base, segs[0].size - cut, segs[0].rec)]
  }

  /** The system takes back whatever it is offered. */
  ghost predicate TakesAll(unmaps: int -> bool) {
    forall a :: unmaps(a)
  }

  /** What sys_trim does, keeping `pad` bytes: the top goes down to within a unit of that, if the system takes its end
      back; older segments that are unused go, if the system takes them; and if there was nothing to give, although the
      top is over the threshold, it will not be tried again. */
  ghost predicate Trimmed(ck: Chunks, segs: seq<Segment>, topsize: int, trimCheck: int, pad: int, unmaps: int -> bool,
                          segs': seq<Segment>, topsize': int, trimCheck': int, checks': int) {
    && TopLeft(segs, topsize, pad, unmaps, topsize')
    && segs' == Shortened(SweptList(ck, segs, unmaps), topsize - topsize')
    && trimCheck' == (if topsize' < topsize then TRIM_THRESHOLD
                      else if segs' == segs && topsize > trimCheck then W64 - 1
                      else trimCheck)
    && ChecksReset(|segs|, checks')
  }

  lemma ShortenedBack(ck: Chunks, segs: seq<Segment>, unmaps: int -> bool, cut: int)
    ensures Shortened(segs, 0) == segs && SweptList(ck, [], unmaps) == []
    ensures segs != [] ==> |Shortened(segs, cut)| == |segs| && Shortened(segs, cut)[1..] == segs[1..]
    ensures cut != 0 && segs != [] ==> Shortened(segs, cut)[0] != segs[0]
  {
  }

  /** Segments in which the first chunk is as it was are judged alike. */
  lemma {:induction false} SweepSame(ck: Chunks, d: Chunks, rest: seq<Segment>, unmaps: int -> bool)
    requires forall s | s in rest :: UnusedIn(ck, s) <==> UnusedIn(d, s)
    ensures Sweep(ck, rest, unmaps) == Sweep(d, rest, unmaps)
  {
    hide UnusedIn;
    if rest != [] {
      SweepSame(ck, d, rest[1..], unmaps);
    }
  }

  /** A shorter top makes no difference to the older segments. */
  lemma OlderSame(m: Mem, smallmap: bv32, treemap: bv32, b: Bins, ck: Chunks, segs: seq<Segment>, least: int,
                  dv: int, dvsize: int, top: int, topsize: int, unmaps: int -> bool, cut: int)
    requires segs != [] && 0 <= cut < topsize
    requires Loose(m, smallmap, treemap, b, ck, segs, least) && Settled(b.sz, ck, segs, dv, dvsize, top, topsize)
    ensures top in ck
    ensures SweptList(ResizeTop(ck, top, topsize - cut), Shortened(segs, cut), unmaps)
         == Shortened(SweptList(ck, segs, unmaps), cut)
  {
    hide Loose, LayoutOk, Regions, Shape, SegmentsApart, Sweep, UnusedIn, Settled, SweptList, Shortened, ResizeTop;
    LooseParts(m, smallmap, treemap, b, ck, segs, least);
    LayoutApart(ck, segs);
    SettledTop(b.sz, ck, segs, dv, dvsize, top, topsize);
    TopEnd(ck, segs, top);
    var d := ResizeTop(ck, top, topsize - cut);
    forall s | s in segs[1..] ensures UnusedIn(ck, s) <==> UnusedIn(d, s) {
      var i :| 0 <= i < |segs[1..]| && segs[1..][i] == s;
      OlderUnused(ck, segs, top, topsize - cut, i + 1);
    }
    ShortList(ck, d, segs, unmaps, cut);
  }

  lemma OlderUnused(ck: Chunks, segs: seq<Segment>, top: int, s: int, i: nat)
    requires SegmentsApart(segs) && Regions(segs) && 1 <= i < |segs| && top in ck && 0 < s <= ck[top].size
    requires segs[0].base <= top && top + ck[top].size + TOP_FOOT_SIZE == segs[0].base + segs[0].size
    ensures UnusedIn(ck, segs[i]) <==> UnusedIn(ResizeTop(ck, top, s), segs[i])
  {
    hide SegmentsApart, Regions, UnusedIn, ResizeTop;
    RegionSize(segs, i);
    OutsideFirst(segs, i);
    AwayFromTop(ck, top, s, segs[i]);
  }

  lemma ShortList(ck: Chunks, d: Chunks, segs: seq<Segment>, unmaps: int -> bool, cut: int)
    requires segs != [] && forall s | s in segs[1..] :: UnusedIn(ck, s) <==> UnusedIn(d, s)
    ensures SweptList(d, Shortened(segs, cut), unmaps) == Shortened(SweptList(ck, segs, unmaps), cut)
  {
    hide UnusedIn, Sweep;
    ShortenedBack(ck, segs, unmaps, cut);
    SweepSame(ck, d, segs[1..], unmaps);
  }

  /** If the top is not touched. */
  lemma NothingTrimmed(ck: Chunks, segs: seq<Segment>, topsize: int, pad: int, unmaps: int -> bool)
    ensures Shortened(segs, 0) == segs && SweptList(ck, segs, unmaps) == Shortened(SweptList(ck, segs, unmaps), 0)
    ensures topsize <= pad ==> TopLeft(segs, topsize, pad, unmaps, topsize)
  {
    hide Sweep;
    ShortenedBack(ck, segs, unmaps, 0);
    ShortenedBack(ck, SweptList(ck, segs, unmaps), unmaps, 0);
  }

  /** A system that takes everything back leaves at most a unit more than `pad`. */
  lemma WithinUnit(segs: seq<Segment>, topsize: int, pad: int, unmaps: int -> bool, left: int)
    requires TopLeft(segs, topsize, pad, unmaps, left) && topsize > pad && segs != []
    ensures TakesAll(unmaps) ==> 0 < left - pad <= Pow2(GRANULARITY_BITS)
  {
    hide Pow2;
  }

  /** The two parts of sys_trim put together: `cut` bytes of the top went, and then `more` bytes of older segments. */
  lemma BothParts(ck: Chunks, segs: seq<Segment>, topsize: int, trimCheck: int, pad: int, unmaps: int -> bool,
                  cut: int, more: int, c: Chunks, g: seq<Segment>, mid: int,
                  segs': seq<Segment>, topsize': int, trimCheck': int, checks': int)
    requires segs != [] && TopLeft(segs, topsize, pad, unmaps, topsize') && topsize' == topsize - cut && cut >= 0
    requires g == Shortened(segs, cut) && SweptList(c, g, unmaps) == Shortened(SweptList(ck, segs, unmaps), cut)
    requires segs' == SweptList(c, g, unmaps) && more >= 0 && (more == 0 <==> segs' == g)
    requires mid == if cut == 0 then trimCheck else TRIM_THRESHOLD
    requires trimCheck' == if cut + more == 0 && topsize' > mid then W64 - 1 else mid
    requires ChecksReset(|g|, checks')
    ensures Trimmed(ck, segs, topsize, trimCheck, pad, unmaps, segs', topsize', trimCheck', checks')
  {
    hide TopLeft, SweptList, ChecksReset, Shortened;
    ShortenedBack(ck, segs, unmaps, cut);
  }

  lemma OutsideFirst(segs: seq<Segment>, i: nat)
    requires SegmentsApart(segs) && 1 <= i < |segs| && segs[i].size > 0
    ensures !(segs[0].base <= segs[i].base < segs[0].base + segs[0].size)
  {
    assert segs[0].base + segs[0].size <= segs[i].base || segs[i].base + segs[i].size <= segs[0].base;
  }

  lemma AwayFromTop(ck: Chunks, top: int, s: int, u: Segment)
    requires top in ck && u.base != top && u.base != top + ck[top].size && u.base != top + s
    ensures UnusedIn(ck, u) <==> UnusedIn(ResizeTop(ck, top, s), u)
  {
  }

  // ----- After a free

  /** The release counter, counted down as a `size_t`. */
  predicate CountedDown(checks: int, checks': int) {
    if checks == 0 then checks' == W64 - 1 else checks' == checks - 1
  }

  /** When dlfree trims. `ck` is the layout in which chunk `p` is live, `c` that in which it has been merged into the run
      at `q`. A run that reaches the top is trimmed if the top has come to exceed the threshold. A run that goes to a tree
      bin is counted, and when the counter comes to zero the segments are looked through. Otherwise nothing is done. */
  ghost predicate OnceMerged(c: Chunks, q: int, binned: bool, segs: seq<Segment>, topsize: int, trimCheck: int,
                           checks: int, unmaps: int -> bool, segs': seq<Segment>, topsize': int, trimCheck': int,
                           checks': int) {
    && q in c
    && if c[q].kind == Top then
         if c[q].size <= trimCheck then
           segs' == segs && topsize' == c[q].size && trimCheck' == trimCheck && checks' == checks
         else Trimmed(c, segs, c[q].size, trimCheck, TOP_FOOT_SIZE, unmaps, segs', topsize', trimCheck', checks')
       else
         && topsize' == topsize && trimCheck' == trimCheck
         && if binned && c[q].size >= 256 then
              if CountedDown(checks, 0) then segs' == SweptList(c, segs, unmaps) && ChecksReset(|segs|, checks')
              else segs' == segs && CountedDown(checks, checks')
            else segs' == segs && checks' == checks
  }

  /** A run that became the designated victim leaves all else alone. */
  lemma VictimOnly(c: Chunks, q: int, segs: seq<Segment>, topsize: int, trimCheck: int, checks: int,
                   unmaps: int -> bool)
    requires q in c && c[q].kind == Free
    ensures OnceMerged(c, q, false, segs, topsize, trimCheck, checks, unmaps, segs, topsize, trimCheck, checks)
  {
    hide Trimmed, SweptList, ChecksReset;
  }

  /** Whether a run was binned matters only if it was not merged with the top, and so does the top's size. */
  lemma TopAlone(c: Chunks, q: int, binned: bool, out: bool, segs: seq<Segment>, t: int, topsize: int, trimCheck: int,
                 checks: int, unmaps: int -> bool, segs': seq<Segment>, topsize': int, trimCheck': int, checks': int)
    requires OnceMerged(c, q, binned, segs, t, trimCheck, checks, unmaps, segs', topsize', trimCheck', checks')
    requires q in c && (c[q].kind != Top ==> t == topsize && (binned <==> out))
    ensures OnceMerged(c, q, out, segs, topsize, trimCheck, checks, unmaps, segs', topsize', trimCheck', checks')
  {
    hide Trimmed, SweptList, ChecksReset;
  }
}
