/**
 * The slab allocator of lib/libiapp/shm_alloc.c on values: slabs that only grow,
 * blocks cut from them, and per-slab lists of blocks to hand out again.
 */
module ShmAlloc {
  import opened Seqs

  /** size_t is 64 bits wide and wraps. */
  const WORD: int := 0x1_0000_0000_0000_0000

  type Size = n: int | 0 <= n < WORD

  type BlockId = nat

  datatype Option<T> = None | Some(value: T)

  datatype Block = Block(slab: nat, offset: Size, len: Size, active: bool)

  datatype Slab = Slab(size: Size, curofs: Size, free: seq<BlockId>, cnt: int)

  /** The slab list, every block ever cut in order, and whether the lock is held. */
  datatype State = State(slabs: seq<Slab>, blocks: seq<Block>, locked: bool)

  const EMPTY := State([], [], false)

  predicate AreBlocks(blocks: seq<Block>, free: seq<BlockId>) {
    forall k :: 0 <= k < |free| ==> free[k] < |blocks|
  }

  /** Every id on a free list is a block, and every block has its slab. */
  predicate Linked(s: State) {
    && (forall i :: 0 <= i < |s.slabs| ==> AreBlocks(s.blocks, s.slabs[i].free))
    && (forall b :: 0 <= b < |s.blocks| ==> s.blocks[b].slab < |s.slabs|)
  }

  // ------------------------------------------------------------------
  // Operations
  // ------------------------------------------------------------------

  /** Position of the first block of that length, or the length of the list. */
  function Fit(blocks: seq<Block>, free: seq<BlockId>, size: Size): nat
    requires AreBlocks(blocks, free)
  {
    if free == [] || blocks[free[0]].len == size then 0 else 1 + Fit(blocks, free[1..], size)
  }

  /** The block shm_alloc_lookup_freelist finds among the first `n` slabs: a later slab beats an earlier one. */
  function Found(s: State, size: Size, n: nat): (r: Option<BlockId>)
    requires Linked(s) && n <= |s.slabs|
    ensures r.Some? ==> r.value < |s.blocks|
  {
    if n == 0 then None
    else if Fit(s.blocks, s.slabs[n - 1].free, size) < |s.slabs[n - 1].free|
    then Some(s.slabs[n - 1].free[Fit(s.blocks, s.slabs[n - 1].free, size)])
    else Found(s, size, n - 1)
  }

  /** A free block goes back into use. */
  function Reuse(s: State, b: BlockId): State
    requires Linked(s) && b < |s.blocks|
  {
    var i := s.blocks[b].slab;
    s.(slabs := s.slabs[i := s.slabs[i].(free := Remove(s.slabs[i].free, b), cnt := s.slabs[i].cnt - 1)],
       blocks := s.blocks[b := s.blocks[b].(active := true)])
  }

  /** The room test, in size_t arithmetic. */
  predicate Room(sl: Slab, size: Size) {
    (sl.curofs + size) % WORD <= sl.size
  }

  /** The first slab from `i` on with room, or the number of slabs. */
  function FirstRoom(slabs: seq<Slab>, size: Size, i: nat): (r: nat)
    requires i <= |slabs|
    ensures i <= r <= |slabs| && (r < |slabs| ==> Room(slabs[r], size))
    ensures forall k :: i <= k < r ==> !Room(slabs[k], size)
    decreases |slabs| - i
  {
    if i == |slabs| || Room(slabs[i], size) then i else FirstRoom(slabs, size, i + 1)
  }

  /** A new block at the end of what slab `i` has handed out. */
  function Cut(s: State, i: nat, size: Size): State
    requires i < |s.slabs|
  {
    s.(slabs := s.slabs[i := s.slabs[i].(curofs := (s.slabs[i].curofs + size) % WORD)],
       blocks := s.blocks + [Block(i, s.slabs[i].curofs, size, true)])
  }

  /** shm_alloc_alloc; `mem` says whether malloc of the block's header succeeds. */
  function Alloc(s: State, size: Size, mem: bool): (State, Option<BlockId>)
    requires Linked(s)
  {
    if Found(s, size, |s.slabs|).Some? then
      (Reuse(s, Found(s, size, |s.slabs|).value), Found(s, size, |s.slabs|))
    else if FirstRoom(s.slabs, size, 0) == |s.slabs| then (s, None)
    else if !mem then (s.(locked := true), None)
    else (Cut(s, FirstRoom(s.slabs, size, 0), size), Some(|s.blocks|))
  }

  /** shm_alloc_free */
  function Free(s: State, b: BlockId): State
    requires Linked(s) && b < |s.blocks|
  {
    var i := s.blocks[b].slab;
    s.(slabs := s.slabs[i := s.slabs[i].(free := [b] + s.slabs[i].free, cnt := s.slabs[i].cnt + 1)],
       blocks := s.blocks[b := s.blocks[b].(active := false)])
  }

  /** shm_alloc_new_slab, when the system grants the memory */
  function NewSlab(s: State, size: Size, granted: bool): State {
    if granted then s.(slabs := s.slabs + [Slab(size, 0, [], 0)]) else s
  }

  // ------------------------------------------------------------------
  // Histories
  // ------------------------------------------------------------------

  datatype Op = Grow(size: Size, granted: bool) | Take(size: Size, mem: bool) | Give(b: BlockId)

  /** No call gets past a held lock, and only an active block may be given back. */
  predicate Can(s: State, op: Op) {
    && Linked(s) && !s.locked
    && (op.Give? ==> op.b < |s.blocks| && s.blocks[op.b].active)
  }

  function Step(s: State, op: Op): State
    requires Can(s, op)
  {
    match op
    case Grow(size, granted) => NewSlab(s, size, granted)
    case Take(size, mem) => Alloc(s, size, mem).0
    case Give(b) => Free(s, b)
  }

  predicate Valid(s: State, ops: seq<Op>)
    decreases |ops|, 0
  {
    ops == [] || (Valid(s, ops[..|ops| - 1]) && Can(Run(s, ops[..|ops| - 1]), ops[|ops| - 1]))
  }

  function Run(s: State, ops: seq<Op>): State
    requires Valid(s, ops)
    decreases |ops|, 1
  {
    if ops == [] then s else Step(Run(s, ops[..|ops| - 1]), ops[|ops| - 1])
  }
}
