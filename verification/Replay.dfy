/** Whole runs: any sequence of malloc, free and writes by callers, from a zeroed malloc_state. */
module Replay {
  import opened Memory
  import opened Bits
  import opened Bins
  import opened BinSteps
  import opened Layout
  import opened Segments
  import opened Tags
  import opened Moves
  import opened Invariant
  import opened Grants
  import opened SegmentGrowth
  import opened SystemSteps
  import opened SystemSizes
  import opened Sweeps
  import opened Blocks
  import opened FirstState
  import opened Heap
  import opened Checker

  /** What a program does with the heap. `k` picks one of the blocks that it holds; an operation that
      picks none, or a word outside its block, is left out. */
  datatype Op =
    | Malloc(bytes: nat, answer: int)      // `answer`: what the system says if it is asked for memory
    | Free(k: nat)
    | Write(k: nat, i: nat, v: int)        // word `i` of the block

  // ----- Answers of the system

  /** Whether a region lies in the address space, off the malloc_state, and is made of whole units. */
  predicate RegionFits(base: int, size: int) {
    && base > 0 && size > 0 && base + size <= W64 && (base + size <= STATE || STATE + STATE_SIZE <= base)
    && base % Pow2(GRANULARITY_BITS) == 0 && size % Pow2(GRANULARITY_BITS) == 0
  }

  lemma RegionFitsIs(base: int, size: int)
    ensures RegionFits(base, size) <==> RegionOk(base, size)
  {
    hide Pow2;
  }

  lemma OutsideNone(base: int, size: int)
    ensures Outside([], base, size)
  {
  }

  lemma OutsideMore(segs: seq<Segment>, i: nat, base: int, size: int)
    requires i < |segs|
    ensures Outside(segs[..i + 1], base, size) <==>
      Outside(segs[..i], base, size) && (segs[i].base + segs[i].size <= base || base + size <= segs[i].base)
  {
    if Outside(segs[..i + 1], base, size) {
      assert segs[..i + 1][i] == segs[i];
      forall j | 0 <= j < |segs[..i]|
        ensures segs[j].base + segs[j].size <= base || base + size <= segs[j].base
      {
        assert segs[..i + 1][j] == segs[j];
      }
    }
  }

  /** Whether a region is one that the system may hand out; other answers are taken as a refusal. */
  method Acceptable(h: MallocState, base: int, size: int) returns (ok: bool)
    requires h.Valid()
    ensures ok <==> Mapped(h.segs, base, size)
  {
    hide Loose, Settled, LayoutOk, SegList, RegionFits, RegionOk, Outside;
    RegionFitsIs(base, size);
    OutsideNone(base, size);
    ok := RegionFits(base, size);
    SystemReady(h.mem, h.smallmap, h.treemap, h.bins, h.ck, h.segs, h.leastAddr, h.dv, h.dvsize, h.top, h.topsize);
    if h.top != 0 {
      Listed(h.mem, h.smallmap, h.treemap, h.bins, h.ck, h.segs, h.leastAddr);
      var s := SEG;
      ghost var i := 0;
      while s != 0
        invariant 0 <= i <= |h.segs| && (s != 0 ==> i < |h.segs| && s == h.segs[i].rec) && (s == 0 ==> i == |h.segs|)
        invariant ok <==> RegionOk(base, size) && Outside(h.segs[..i], base, size)
        decreases |h.segs| - i
      {
        ListWords(h.mem, h.segs, i);
        OutsideMore(h.segs, i, base, size);
        ok := ok && (Rd(h.mem, s) + Rd(h.mem, s + SEG_SIZE) <= base || base + size <= Rd(h.mem, s));
        s := Rd(h.mem, s + SEG_NEXT);
        i := i + 1;
      }
      assert h.segs[..i] == h.segs;
    }
  }

  // ----- The blocks that the program holds

  /** `blocks` lists the live blocks, each once. */
  ghost predicate Holding(ck: Chunks, blocks: seq<int>) {
    && (forall i | 0 <= i < |blocks| :: blocks[i] - 16 in LiveOf(ck) && blocks[i] != 0)
    && (forall i, j | 0 <= i < j < |blocks| :: blocks[i] != blocks[j])
    && (forall a | a in LiveOf(ck) :: a + 16 in blocks)
  }

  lemma HoldingMore(ck: Chunks, d: Chunks, blocks: seq<int>, r: int, s: int)
    requires Holding(ck, blocks) && r != 0 && r - 16 !in LiveOf(ck) && LiveOf(d) == LiveOf(ck)[r - 16 := s]
    ensures Holding(d, blocks + [r])
  {
    hide LiveOf;
    forall a | a in LiveOf(d) ensures a + 16 in blocks + [r] {
      if a == r - 16 { assert (blocks + [r])[|blocks|] == r; }
    }
  }

  lemma HoldingLess(ck: Chunks, d: Chunks, blocks: seq<int>, k: nat)
    requires Holding(ck, blocks) && k < |blocks| && LiveOf(d) == LiveOf(ck) - {blocks[k] - 16}
    ensures Holding(d, blocks[..k] + blocks[k + 1..])
  {
    hide LiveOf;
    var rest := blocks[..k] + blocks[k + 1..];
    RestDistinct(blocks, k);
    forall i | 0 <= i < |rest| ensures rest[i] - 16 in LiveOf(d) && rest[i] != 0 {
      RestAt(blocks, k, i);
    }
    forall a | a in LiveOf(d) ensures a + 16 in rest { StillListed(blocks, k, a + 16); }
  }

  lemma RestAt(blocks: seq<int>, k: nat, i: nat)
    requires k < |blocks| && i + 1 < |blocks| && forall i, j | 0 <= i < j < |blocks| :: blocks[i] != blocks[j]
    ensures var j := Other(k, i); j < |blocks| && (blocks[..k] + blocks[k + 1..])[i] == blocks[j] != blocks[k]
  {
  }

  lemma RestDistinct(blocks: seq<int>, k: nat)
    requires k < |blocks| && forall i, j | 0 <= i < j < |blocks| :: blocks[i] != blocks[j]
    ensures var rest := blocks[..k] + blocks[k + 1..]; forall i, j | 0 <= i < j < |rest| :: rest[i] != rest[j]
  {
    var rest := blocks[..k] + blocks[k + 1..];
    forall i, j | 0 <= i < j < |rest| ensures rest[i] != rest[j] {
      RestAt(blocks, k, i);
      RestAt(blocks, k, j);
    }
  }

  /** Where the element now at `i` was before the one at `k` was taken out. */
  function Other(k: nat, i: nat): nat {
    if i < k then i else i + 1
  }

  lemma StillListed(blocks: seq<int>, k: nat, r: int)
    requires k < |blocks| && r in blocks && r != blocks[k]
    ensures r in blocks[..k] + blocks[k + 1..]
  {
    var i :| 0 <= i < |blocks| && blocks[i] == r;
    assert (blocks[..k] + blocks[k + 1..])[if i < k then i else i - 1] == r;
  }

  lemma BlockHeld(ck: Chunks, blocks: seq<int>, k: nat)
    requires Holding(ck, blocks) && k < |blocks|
    ensures blocks[k] != 0 && blocks[k] - 16 in ck && ck[blocks[k] - 16].kind == Live
  {
    assert blocks[k] - 16 in LiveOf(ck);
  }

  // ----- One operation

  /** A heap between the operations of a run. */
  ghost predicate Sound(h: MallocState, blocks: seq<int>)
    reads h
  {
    h.Valid() && h.Accounted() && h.Counted() && Holding(h.ck, blocks) && h.footprintLimit == 0
  }

  // ----- What the program may expect

  /** A block that the program asked for, and the words that it has written there. */
  datatype Block = Block(request: nat, words: map<nat, int>)

  /** The blocks held after the first `n` operations, of which those marked in `done` were carried out. */
  ghost function After(ops: seq<Op>, done: seq<bool>, n: nat): seq<Block>
    requires n <= |ops| && n <= |done|
  {
    if n == 0 then [] else Next(After(ops, done, n - 1), ops[n - 1], done[n - 1])
  }

  ghost function Next(held: seq<Block>, op: Op, done: bool): seq<Block> {
    if !done then held
    else match op
      case Malloc(bytes, _) => held + [Block(bytes, map[])]
      case Free(k) => if k < |held| then held[..k] + held[k + 1..] else held
      case Write(k, i, v) => if k < |held| then held[k := Block(held[k].request, held[k].words[i := v])] else held
  }

  /** The block at `r` is large enough for its request, not much larger, and holds the words that were written. */
  ghost predicate Kept(m: Mem, ck: Chunks, r: int, b: Block) {
    && r - 16 in ck && ck[r - 16].kind == Live
    && RequestSize(b.request) <= ck[r - 16].size < RequestSize(b.request) + MIN_CHUNK_SIZE
    && forall i: nat | i in b.words :: 8 * i + 8 <= ck[r - 16].size - 8 && Rd(m, r + 8 * i) == b.words[i]
  }

  ghost predicate AllKept(m: Mem, ck: Chunks, blocks: seq<int>, held: seq<Block>) {
    |blocks| == |held| && forall i | 0 <= i < |blocks| :: Kept(m, ck, blocks[i], held[i])
  }

  /** A block that an operation leaves alone. */
  lemma StillKept(m: Mem, ck: Chunks, n: Mem, d: Chunks, live: map<int, int>, r: int, b: Block)
    requires Kept(m, ck, r, b) && r - 16 in live && live[r - 16] == ck[r - 16].size && BlocksKept(m, n, live)
    requires r - 16 in d && d[r - 16].kind == Live && d[r - 16].size == ck[r - 16].size
    ensures Kept(n, d, r, b)
  {
    hide RequestSize;
    forall i: nat | i in b.words ensures Rd(n, r + 8 * i) == b.words[i] {
      assert r - 16 + 16 <= r + 8 * i < r - 16 + live[r - 16] + 8;
    }
  }

  lemma LiveSize(ck: Chunks, a: int)
    ensures a in LiveOf(ck) <==> a in ck && ck[a].kind == Live
    ensures a in LiveOf(ck) ==> LiveOf(ck)[a] == ck[a].size
  {
  }

  /** All blocks but perhaps the one at `x` are left alone. */
  lemma OthersKept(m: Mem, ck: Chunks, n: Mem, d: Chunks, x: int, r: int, b: Block)
    requires Kept(m, ck, r, b) && r - 16 != x && BlocksKept(m, n, LiveOf(ck) - {x})
    requires r - 16 in LiveOf(d) && r - 16 in LiveOf(ck) && LiveOf(d)[r - 16] == LiveOf(ck)[r - 16]
    ensures Kept(n, d, r, b)
  {
    hide LiveOf, BlocksKept, Kept;
    LiveSize(ck, r - 16);
    LiveSize(d, r - 16);
    StillKept(m, ck, n, d, LiveOf(ck) - {x}, r, b);
  }

  lemma KeptLive(m: Mem, ck: Chunks, blocks: seq<int>, held: seq<Block>, i: nat)
    requires AllKept(m, ck, blocks, held) && i < |blocks|
    ensures blocks[i] - 16 in LiveOf(ck) && Kept(m, ck, blocks[i], held[i])
  {
  }

  lemma KeptMore(m: Mem, ck: Chunks, n: Mem, d: Chunks, blocks: seq<int>, held: seq<Block>, r: int, bytes: nat)
    requires AllKept(m, ck, blocks, held) && r - 16 !in LiveOf(ck) && BlocksKept(m, n, LiveOf(ck))
    requires r - 16 in d && d[r - 16].kind == Live && LiveOf(d) == LiveOf(ck)[r - 16 := d[r - 16].size]
    requires RequestSize(bytes) <= d[r - 16].size < RequestSize(bytes) + MIN_CHUNK_SIZE
    ensures AllKept(n, d, blocks + [r], held + [Block(bytes, map[])])
  {
    hide LiveOf, BlocksKept, RequestSize, Kept;
    assert LiveOf(ck) - {r - 16} == LiveOf(ck);
    forall i | 0 <= i < |blocks| ensures Kept(n, d, blocks[i], held[i]) {
      KeptLive(m, ck, blocks, held, i);
      OthersKept(m, ck, n, d, r - 16, blocks[i], held[i]);
    }
    assert Kept(n, d, r, Block(bytes, map[])) by { FreshKept(n, d, r, bytes); }
  }

  lemma FreshKept(n: Mem, d: Chunks, r: int, bytes: nat)
    requires r - 16 in d && d[r - 16].kind == Live
    requires RequestSize(bytes) <= d[r - 16].size < RequestSize(bytes) + MIN_CHUNK_SIZE
    ensures Kept(n, d, r, Block(bytes, map[]))
  {
    hide RequestSize;
  }

  lemma KeptLess(m: Mem, ck: Chunks, n: Mem, d: Chunks, blocks: seq<int>, held: seq<Block>, k: nat)
    requires AllKept(m, ck, blocks, held) && k < |blocks| && Holding(ck, blocks)
    requires LiveOf(d) == LiveOf(ck) - {blocks[k] - 16} && BlocksKept(m, n, LiveOf(d))
    ensures AllKept(n, d, blocks[..k] + blocks[k + 1..], held[..k] + held[k + 1..])
  {
    hide LiveOf, BlocksKept, Kept;
    var rest := blocks[..k] + blocks[k + 1..];
    forall i | 0 <= i < |rest| ensures Kept(n, d, rest[i], (held[..k] + held[k + 1..])[i]) {
      RestAt(blocks, k, i);
      KeptLive(m, ck, blocks, held, Other(k, i));
      OthersKept(m, ck, n, d, blocks[k] - 16, rest[i], held[Other(k, i)]);
    }
  }

  lemma KeptWritten(m: Mem, n: Mem, ck: Chunks, blocks: seq<int>, held: seq<Block>, k: nat, i: nat, v: int)
    requires AllKept(m, ck, blocks, held) && k < |blocks| && Holding(ck, blocks)
    requires blocks[k] - 16 in ck && 8 * i + 8 <= ck[blocks[k] - 16].size - 8
    requires n == m[blocks[k] + 8 * i := v] && BlocksKept(m, n, LiveOf(ck) - {blocks[k] - 16})
    ensures AllKept(n, ck, blocks, held[k := Block(held[k].request, held[k].words[i := v])])
  {
    hide LiveOf, BlocksKept, Kept;
    var after := held[k := Block(held[k].request, held[k].words[i := v])];
    forall j | 0 <= j < |blocks| ensures Kept(n, ck, blocks[j], after[j]) {
      KeptLive(m, ck, blocks, held, j);
      if j == k {
        WordKept(m, ck, blocks[k], held[k], i, v);
      } else {
        OthersKept(m, ck, n, ck, blocks[k] - 16, blocks[j], held[j]);
      }
    }
  }

  lemma WordKept(m: Mem, ck: Chunks, r: int, b: Block, i: nat, v: int)
    requires Kept(m, ck, r, b) && 8 * i + 8 <= ck[r - 16].size - 8
    ensures Kept(m[r + 8 * i := v], ck, r, Block(b.request, b.words[i := v]))
  {
    hide RequestSize;
  }

  /** What dlmalloc is told if it asks the system: an answer that is not acceptable is a refusal. */
  ghost function Told(segs: seq<Segment>, bytes: nat, answer: int): int {
    if Mapped(segs, answer, AllocSize(MallocSize(bytes))) then answer else CMFAIL
  }

  method ReplayMalloc(h: MallocState, blocks: seq<int>, bytes: nat, answer: int, ghost kept: seq<Block>)
    returns (held: seq<int>, done: bool, ok: bool)
    requires Sound(h, blocks) && AllKept(h.mem, h.ck, blocks, kept) && bytes < W64
    modifies h
    ensures ok && Sound(h, held) && AllKept(h.mem, h.ck, held, Next(kept, Malloc(bytes, answer), done))
    ensures done <==> !old(h.Refuses(bytes, Told(h.segs, bytes, answer)))
  {
    hide Loose, Settled, Granted, LiveOf, Total, SegTotal, Mapped, AllocSize, MallocSize, Holding, AllKept, RequestSize,
         BlocksKept;
    var mapped := Acceptable(h, answer, AllocSize(MallocSize(bytes)));
    ghost var m, c := h.mem, h.ck;
    var r := h.Dlmalloc(bytes, if mapped then answer else CMFAIL);
    held, ok, done := blocks, true, r != 0;
    if r != 0 {
      GrantedLive(m, c, h.mem, h.ck, r, MallocSize(bytes));
      HoldingMore(c, h.ck, blocks, r, h.ck[r - 16].size);
      assert MallocSize(bytes) == RequestSize(bytes) by {
        Served(h.mem, h.smallmap, h.treemap, h.bins, h.ck, h.segs, h.leastAddr, bytes, r - 16);
      }
      KeptMore(m, c, h.mem, h.ck, blocks, kept, r, bytes);
      held := blocks + [r];
      ok := CheckMalloced(h, r, MallocSize(bytes));
    }
  }

  /** No chunk is as large as what stands for a request that is out of range. */
  lemma Served(m: Mem, smallmap: bv32, treemap: bv32, b: Bins, ck: Chunks, segs: seq<Segment>, least: int, bytes: nat,
               p: int)
    requires p in ck && ck[p].size >= MallocSize(bytes)
    requires Loose(m, smallmap, treemap, b, ck, segs, least)
    ensures MallocSize(bytes) == RequestSize(bytes)
  {
    hide Loose, LayoutOk, Shape, Regions;
    LooseParts(m, smallmap, treemap, b, ck, segs, least);
    SizeBound(ck, segs, p);
    ChunkIn(ck, p);
  }

  lemma GrantedLive(m: Mem, ck: Chunks, n: Mem, d: Chunks, r: int, nb: int)
    requires Granted(m, ck, n, d, r, nb)
    ensures r - 16 in d && r > 0 && r - 16 !in LiveOf(ck) && LiveOf(d) == LiveOf(ck)[r - 16 := d[r - 16].size]
    ensures d[r - 16].kind == Live && nb <= d[r - 16].size < nb + MIN_CHUNK_SIZE && BlocksKept(m, n, LiveOf(ck))
  {
    hide LiveOf, BlocksKept;
  }

  method ReplayFree(h: MallocState, blocks: seq<int>, k: nat, unmaps: int -> bool, ghost kept: seq<Block>)
    returns (held: seq<int>)
    requires Sound(h, blocks) && AllKept(h.mem, h.ck, blocks, kept) && k < |blocks|
    modifies h
    ensures Sound(h, held) && held == blocks[..k] + blocks[k + 1..]
    ensures AllKept(h.mem, h.ck, held, Next(kept, Op.Free(k), true))
  {
    hide Loose, Settled, LiveOf, Total, SegTotal, Holding, Freed, RunBase, BlocksKept, OnceMerged, Kept;
    BlockHeld(h.ck, blocks, k);
    ghost var m, c := h.mem, h.ck;
    h.Dlfree(blocks[k], unmaps);
    HoldingLess(c, h.ck, blocks, k);
    KeptLess(m, c, h.mem, h.ck, blocks, kept, k);
    held := blocks[..k] + blocks[k + 1..];
  }

  /** A store to word `i` of a block, if it lies in the part that dlmalloc_usable_size reports. */
  method ReplayWrite(h: MallocState, blocks: seq<int>, k: nat, i: nat, v: int, ghost kept: seq<Block>)
    returns (done: bool)
    requires Sound(h, blocks) && AllKept(h.mem, h.ck, blocks, kept) && k < |blocks|
    modifies h
    ensures Sound(h, blocks) && AllKept(h.mem, h.ck, blocks, Next(kept, Write(k, i, v), done))
    ensures done <==> blocks[k] - 16 in old(h.ck) && 8 * i + 8 <= old(h.ck[blocks[k] - 16].size) - 8
  {
    hide Loose, Settled, LiveOf, Total, SegTotal, Holding, BlocksKept, Owned, Kept;
    BlockHeld(h.ck, blocks, k);
    var p := blocks[k] - 16;
    WriteReady(h.mem, h.smallmap, h.treemap, h.bins, h.ck, h.segs, h.leastAddr, p);
    done := 8 * i + 8 <= ChunkSize(Rd(h.mem, p + HEAD)) - 8;
    if done {
      OwnedIs(h.ck, p, blocks[k] + 8 * i);
      ghost var m := h.mem;
      h.WriteWord(blocks[k] + 8 * i, v, p);
      KeptWritten(m, h.mem, h.ck, blocks, kept, k, i, v);
    }
  }

  lemma WriteReady(m: Mem, smallmap: bv32, treemap: bv32, b: Bins, ck: Chunks, segs: seq<Segment>, least: int, p: int)
    requires p in ck && ck[p].kind == Live
    requires Loose(m, smallmap, treemap, b, ck, segs, least)
    ensures ChunkSize(Rd(m, p + HEAD)) == ck[p].size && p % 8 == 0
  {
    hide Loose, LayoutOk, Shape, Records, Tagged, SegList, Regions, BinsReady, FreeIn, AboveLeast;
    LooseParts(m, smallmap, treemap, b, ck, segs, least);
    BlockEven(ck, p);
    ReadChunk(m, ck, p);
  }

  /** One operation; `done` says whether it was carried out. */
  method ReplayOp(h: MallocState, blocks: seq<int>, op: Op, unmaps: int -> bool, ghost kept: seq<Block>)
    returns (held: seq<int>, done: bool, ok: bool)
    requires op.Malloc? ==> op.bytes < W64
    requires Sound(h, blocks) && AllKept(h.mem, h.ck, blocks, kept)
    modifies h
    ensures ok && Sound(h, held) && AllKept(h.mem, h.ck, held, Next(kept, op, done)) && (op.Free? ==> done)
    ensures op.Malloc? ==> (done <==> !old(h.Refuses(op.bytes, Told(h.segs, op.bytes, op.answer))))
  {
    hide Loose, Settled, LiveOf, Total, SegTotal, Holding, Kept, MallocSize, Mapped, AllocSize;
    held, done, ok := blocks, true, true;
    match op {
      case Malloc(bytes, answer) =>
        held, done, ok := ReplayMalloc(h, blocks, bytes, answer, kept);
      case Free(k) =>
        if k < |blocks| {
          held := ReplayFree(h, blocks, k, unmaps, kept);
        }
      case Write(k, i, v) =>
        if k < |blocks| {
          done := ReplayWrite(h, blocks, k, i, v, kept);
        }
    }
  }

  // ----- Whole runs

  /** Replays `ops` on a heap that starts from a zeroed malloc_state; `done` says which operations were carried out.
      Whatever the operations and the system's answers: the invariant holds after each of them, the blocks held are
      exactly the live ones, the debug checker is content with the whole heap after each operation and with each block
      granted; each block has the size asked for and the words last written to it; and in the end the walk over the heap
      finds as many bytes in use as the running counter says. */
  method Run(m: Mem, ops: seq<Op>, unmaps: int -> bool)
    returns (h: MallocState, blocks: seq<int>, done: seq<bool>, ok: bool, used: int)
    requires Zeroed(m) && forall j | 0 <= j < |ops| && ops[j].Malloc? :: ops[j].bytes < W64
    ensures fresh(h) && Sound(h, blocks)
    ensures |done| == |ops| && AllKept(h.mem, h.ck, blocks, After(ops, done, |ops|))
    ensures forall j | 0 <= j < |ops| && ops[j].Free? :: done[j]
    ensures ok && used == h.inUseBytes == Total(LiveOf(h.ck))
  {
    hide Loose, Settled, LiveOf, Total, SegTotal, Holding, AllKept, After, Next;
    h := new MallocState(m);
    blocks, done := [], [];
    NoneHeld(h.ck);
    NoneKept(h.mem, h.ck, ops);
    ok := CheckMallocState(h);
    for j := 0 to |ops|
      invariant ok && fresh(h) && Sound(h, blocks)
      invariant |done| == j && AllKept(h.mem, h.ck, blocks, After(ops, done, j))
      invariant forall i | 0 <= i < j && ops[i].Free? :: done[i]
    {
      var carried;
      blocks, carried, ok := ReplayOp(h, blocks, ops[j], unmaps, After(ops, done, j));
      AfterMore(ops, done, carried, j);
      done := done + [carried];
      var sound := CheckMallocState(h);
      ok := ok && sound;
    }
    var peak, system;
    peak, system, used := h.InternalMallocStats();
  }

  lemma NoneKept(m: Mem, ck: Chunks, ops: seq<Op>)
    ensures AllKept(m, ck, [], After(ops, [], 0))
  {
  }

  lemma AfterMore(ops: seq<Op>, done: seq<bool>, carried: bool, j: nat)
    requires j < |ops| && |done| == j
    ensures After(ops, done + [carried], j + 1) == Next(After(ops, done, j), ops[j], carried)
  {
    hide Next;
    AfterSame(ops, done, done + [carried], j);
  }

  lemma {:induction false} AfterSame(ops: seq<Op>, done: seq<bool>, more: seq<bool>, n: nat)
    requires n <= |ops| && n <= |done| && n <= |more| && forall i | 0 <= i < n :: done[i] == more[i]
    ensures After(ops, done, n) == After(ops, more, n)
  {
    hide Next;
    if n > 0 {
      AfterSame(ops, done, more, n - 1);
    }
  }

  lemma NoneHeld(ck: Chunks)
    requires LiveOf(ck) == map[]
    ensures Holding(ck, [])
  {
    hide LiveOf;
  }
}
