/** The heap's memory: 8-byte words at byte addresses, and the field offsets of Heap_DL.cpp. */
module Memory {

  type Mem = map<int, int>

  function Rd(m: Mem, a: int): int {
    if a in m then m[a] else 0
  }

  /** chunksize: a head word without its three flag bits. */
  function ChunkSize(w: int): int {
    w - w % 8
  }

  // Offsets in malloc_chunk and malloc_tree_chunk
  const HEAD: int := 8
  const FD: int := 16
  const BK: int := 24
  const CHILD: int := 32
  const PARENT: int := 48
  const INDEX: int := 56

  // The malloc_state object occupies [STATE, STATE + STATE_SIZE). Its bin arrays smallbins and
  // treebins start at offsets 72 and 600, its embedded segment record at offset 888.
  const STATE: nat
  const STATE_SIZE: nat := 1024

  /** The words of the two bin arrays. */
  ghost predicate BinArea(a: int) {
    STATE + 72 <= a < STATE + 856
  }

  /** smallbin_at: an address whose fd and bk fields fall on smallbins[2i + 2] and smallbins[2i + 3]. */
  function SmallBinAt(i: int): int {
    STATE + 72 + 16 * i
  }

  /** treebin_at */
  function TreeBinAt(i: int): int {
    STATE + 600 + 8 * i
  }
}
