/** What holds after every history of the slab allocator. */
module ShmAllocTiling {
  import opened Seqs
  import opened ShmAlloc

  // ------------------------------------------------------------------
  // Free lists
  // ------------------------------------------------------------------

  /** The list of slab `i` holds each of its inactive blocks once and nothing else. */
  ghost predicate ListRight(s: State, i: nat)
    requires i < |s.slabs|
  {
    && NoDup(s.slabs[i].free) && s.slabs[i].cnt == |s.slabs[i].free|
    && (forall b: BlockId :: b in s.slabs[i].free <==> b < |s.blocks| && s.blocks[b].slab == i && !s.blocks[b].active)
  }

  ghost predicate Lists(s: State) {
    && (forall b :: 0 <= b < |s.blocks| ==> s.blocks[b].slab < |s.slabs|)
    && (forall i :: 0 <= i < |s.slabs| ==> ListRight(s, i))
  }

  lemma ListsLinked(s: State)
    requires Lists(s)
    ensures Linked(s)
  {
    forall i | 0 <= i < |s.slabs| ensures AreBlocks(s.blocks, s.slabs[i].free) {
      assert ListRight(s, i);
      var free := s.slabs[i].free;
      forall k | 0 <= k < |free| ensures free[k] < |s.blocks| {
        assert free[k] in free;
      }
    }
  }

  lemma {:induction false} FitIsFirst(blocks: seq<Block>, free: seq<BlockId>, size: Size)
    requires AreBlocks(blocks, free)
    ensures Fit(blocks, free, size) <= |free|
    ensures Fit(blocks, free, size) < |free| ==> blocks[free[Fit(blocks, free, size)]].len == size
    ensures forall k :: 0 <= k < |free| && k < Fit(blocks, free, size) ==> blocks[free[k]].len != size
  {
    if free != [] && blocks[free[0]].len != size {
      FitIsFirst(blocks, free[1..], size);
      forall k | 0 <= k < |free| && k < Fit(blocks, free, size) ensures blocks[free[k]].len != size {
        if k > 0 { assert free[k] == free[1..][k - 1]; }
      }
    }
  }

  /** The lookup finds an inactive block of exactly that length if there is one at all. */
  lemma {:induction false} FoundIff(s: State, size: Size, n: nat)
    requires Lists(s) && Linked(s) && n <= |s.slabs|
    ensures Found(s, size, n).Some? ==>
      && Found(s, size, n).value < |s.blocks|
      && s.blocks[Found(s, size, n).value].len == size
      && s.blocks[Found(s, size, n).value].slab < n
      && !s.blocks[Found(s, size, n).value].active
      && (forall b :: 0 <= b < |s.blocks| && s.blocks[b].len == size
            && s.blocks[Found(s, size, n).value].slab < s.blocks[b].slab < n
            ==> s.blocks[b].active)
    ensures Found(s, size, n).None? ==>
      forall b :: 0 <= b < |s.blocks| && s.blocks[b].slab < n && s.blocks[b].len == size ==> s.blocks[b].active
  {
    if n > 0 {
      FoundIff(s, size, n - 1);
      FitIsFirst(s.blocks, s.slabs[n - 1].free, size);
      assert ListRight(s, n - 1);
    }
  }

  lemma ReuseKeepsLists(s: State, b: BlockId)
    requires Lists(s) && Linked(s) && b < |s.blocks| && !s.blocks[b].active
    ensures Lists(Reuse(s, b))
  {
    var t, i := Reuse(s, b), s.blocks[b].slab;
    assert ListRight(s, i);
    RemoveMembers(s.slabs[i].free, b);
    var p := RemoveSplit(s.slabs[i].free, b);
    forall k | 0 <= k < |t.slabs| ensures ListRight(t, k) {
      assert ListRight(s, k);
    }
  }

  lemma CutKeepsLists(s: State, i: nat, size: Size)
    requires Lists(s) && i < |s.slabs|
    ensures Lists(Cut(s, i, size))
  {
    forall k | 0 <= k < |s.slabs| ensures ListRight(Cut(s, i, size), k) {
      assert ListRight(s, k);
    }
  }

  lemma FreeKeepsLists(s: State, b: BlockId)
    requires Lists(s) && Linked(s) && b < |s.blocks| && s.blocks[b].active
    ensures Lists(Free(s, b))
  {
    forall k | 0 <= k < |s.slabs| ensures ListRight(Free(s, b), k) {
      assert ListRight(s, k);
    }
  }

  lemma NewSlabKeepsLists(s: State, size: Size, granted: bool)
    requires Lists(s)
    ensures Lists(NewSlab(s, size, granted))
  {
    var t := NewSlab(s, size, granted);
    forall k | 0 <= k < |t.slabs| ensures ListRight(t, k) {
      if k < |s.slabs| { assert ListRight(s, k); }
    }
  }

  lemma StepKeepsLists(s: State, op: Op)
    requires Lists(s) && Can(s, op)
    ensures Lists(Step(s, op)) && Linked(Step(s, op))
  {
    hide Lists, Linked;
    match op {
      case Grow(size, granted) => NewSlabKeepsLists(s, size, granted);
      case Take(size, mem) => AllocKeepsLists(s, size, mem);
      case Give(b) => FreeKeepsLists(s, b);
    }
    ListsLinked(Step(s, op));
  }

  lemma AllocKeepsLists(s: State, size: Size, mem: bool)
    requires Lists(s) && Linked(s)
    ensures Lists(Alloc(s, size, mem).0)
  {
    FoundIff(s, size, |s.slabs|);
    LockKeepsLists(s, true);
    hide Lists, Linked, Cut, Reuse;
    if Found(s, size, |s.slabs|).Some? {
      ReuseKeepsLists(s, Found(s, size, |s.slabs|).value);
    } else if FirstRoom(s.slabs, size, 0) < |s.slabs| {
      CutKeepsLists(s, FirstRoom(s.slabs, size, 0), size);
    }
  }

  lemma LockKeepsLists(s: State, locked: bool)
    requires Lists(s)
    ensures Lists(s.(locked := locked)) && Linked(s.(locked := locked))
  {
    forall k | 0 <= k < |s.slabs| ensures ListRight(s.(locked := locked), k) {
      assert ListRight(s, k);
    }
    ListsLinked(s.(locked := locked));
  }

  lemma {:induction false} LockFindsSame(s: State, locked: bool, size: Size, n: nat)
    requires Linked(s) && Linked(s.(locked := locked)) && n <= |s.slabs|
    ensures Found(s.(locked := locked), size, n) == Found(s, size, n)
  {
    if n > 0 { LockFindsSame(s, locked, size, n - 1); }
  }

  lemma {:induction false} RunKeepsLists(s: State, ops: seq<Op>)
    requires Lists(s) && Linked(s) && Valid(s, ops)
    ensures Lists(Run(s, ops)) && Linked(Run(s, ops))
    decreases |ops|
  {
    hide Lists, Linked, Step, Can;
    if ops != [] {
      RunKeepsLists(s, ops[..|ops| - 1]);
      StepKeepsLists(Run(s, ops[..|ops| - 1]), ops[|ops| - 1]);
    }
  }

  // ------------------------------------------------------------------
  // Tiling
  // ------------------------------------------------------------------

  /** Bytes of slab `i` in these blocks. */
  function Used(blocks: seq<Block>, i: nat): nat {
    if blocks == [] then 0
    else Used(blocks[..|blocks| - 1], i) + (if blocks[|blocks| - 1].slab == i then blocks[|blocks| - 1].len else 0)
  }

  /** Each block begins where the earlier blocks of its slab end; the slab's offset is where they all end. */
  ghost predicate Placed(s: State) {
    && (forall b :: 0 <= b < |s.blocks| ==> s.blocks[b].offset == Used(s.blocks[..b], s.blocks[b].slab))
    && (forall i :: 0 <= i < |s.slabs| ==> s.slabs[i].curofs == Used(s.blocks, i) <= s.slabs[i].size)
  }

  ghost predicate Inv(s: State) {
    Lists(s) && Linked(s) && Placed(s)
  }

  /** The call cuts a block whose end does not fit in a size_t. */
  predicate Wraps(s: State, op: Op)
    requires Linked(s)
  {
    && op.Take? && op.mem && Found(s, op.size, |s.slabs|).None?
    && FirstRoom(s.slabs, op.size, 0) < |s.slabs|
    && s.slabs[FirstRoom(s.slabs, op.size, 0)].curofs + op.size >= WORD
  }

  lemma {:induction false} UsedSame(a: seq<Block>, b: seq<Block>, i: nat)
    requires |a| == |b| && forall k :: 0 <= k < |a| ==> a[k].slab == b[k].slab && a[k].len == b[k].len
    ensures Used(a, i) == Used(b, i)
  {
    if a != [] { UsedSame(a[..|a| - 1], b[..|b| - 1], i); }
  }

  lemma ToggleKeepsPlaced(s: State, t: State, b: BlockId, active: bool)
    requires Placed(s) && b < |s.blocks| && t.blocks == s.blocks[b := s.blocks[b].(active := active)]
    requires |t.slabs| == |s.slabs|
    requires forall i :: 0 <= i < |s.slabs| ==> t.slabs[i].curofs == s.slabs[i].curofs && t.slabs[i].size == s.slabs[i].size
    ensures Placed(t)
  {
    forall k | 0 <= k < |t.blocks| ensures t.blocks[k].offset == Used(t.blocks[..k], t.blocks[k].slab) {
      UsedSame(s.blocks[..k], t.blocks[..k], t.blocks[k].slab);
    }
    forall i | 0 <= i < |t.slabs| ensures t.slabs[i].curofs == Used(t.blocks, i) <= t.slabs[i].size {
      UsedSame(s.blocks, t.blocks, i);
    }
  }

  lemma {:induction false} UsedSplit(blocks: seq<Block>, k: nat, i: nat)
    requires k <= |blocks|
    ensures Used(blocks[..k], i) <= Used(blocks, i)
    decreases |blocks| - k
  {
    if k < |blocks| {
      assert blocks[..k + 1][..k] == blocks[..k];
      UsedSplit(blocks, k + 1, i);
    } else {
      assert blocks[..k] == blocks;
    }
  }

  lemma CutKeepsPlacedIff(s: State, i: nat, size: Size)
    requires Placed(s) && i < |s.slabs| && Room(s.slabs[i], size)
    ensures Placed(Cut(s, i, size)) <==> s.slabs[i].curofs + size < WORD
  {
    var t := Cut(s, i, size);
    assert t.blocks[..|s.blocks|] == s.blocks;
    assert Used(t.blocks, i) == s.slabs[i].curofs + size;
    if s.slabs[i].curofs + size < WORD {
      forall k | 0 <= k < |t.blocks| ensures t.blocks[k].offset == Used(t.blocks[..k], t.blocks[k].slab) {
        assert t.blocks[..k] == s.blocks[..k];
        if k == |s.blocks| { assert s.blocks[..k] == s.blocks; }
      }
    } else {
      assert t.slabs[i].curofs < WORD;
    }
  }

  /** One call keeps the tiling exactly unless it wraps. */
  lemma StepKeepsInvIff(s: State, op: Op)
    requires Inv(s) && Can(s, op)
    ensures Inv(Step(s, op)) <==> !Wraps(s, op)
  {
    StepKeepsLists(s, op);
    match op
    case Grow(size, granted) => GrowKeepsPlaced(s, size, granted);
    case Take(size, mem) =>
      FoundIff(s, size, |s.slabs|);
      if Found(s, size, |s.slabs|).Some? {
        ToggleKeepsPlaced(s, Step(s, op), Found(s, size, |s.slabs|).value, true);
      } else if FirstRoom(s.slabs, size, 0) < |s.slabs| && mem {
        hide Placed, Lists, Linked, Cut;
        CutKeepsPlacedIff(s, FirstRoom(s.slabs, size, 0), size);
      }
    case Give(b) => ToggleKeepsPlaced(s, Step(s, op), b, false);
  }

  lemma {:induction false} UsedElsewhere(blocks: seq<Block>, n: nat)
    requires forall b :: 0 <= b < |blocks| ==> blocks[b].slab < n
    ensures Used(blocks, n) == 0
  {
    if blocks != [] { UsedElsewhere(blocks[..|blocks| - 1], n); }
  }

  lemma GrowKeepsPlaced(s: State, size: Size, granted: bool)
    requires Placed(s) && Linked(s)
    ensures Placed(NewSlab(s, size, granted))
  {
    UsedElsewhere(s.blocks, |s.slabs|);
  }

  /** Some call of the history wraps. */
  predicate EverWraps(s: State, ops: seq<Op>)
    requires Valid(s, ops)
    decreases |ops|
  {
    ops != [] && (EverWraps(s, ops[..|ops| - 1]) || Wraps(Run(s, ops[..|ops| - 1]), ops[|ops| - 1]))
  }

  /** After every history in which no call wraps, the blocks tile what the slabs have handed out. */
  lemma {:induction false} Tiling(s: State, ops: seq<Op>)
    requires Inv(s) && Valid(s, ops) && !EverWraps(s, ops)
    ensures Inv(Run(s, ops))
    decreases |ops|
  {
    hide Inv, Step, Can, Wraps;
    if ops != [] {
      Tiling(s, ops[..|ops| - 1]);
      StepKeepsInvIff(Run(s, ops[..|ops| - 1]), ops[|ops| - 1]);
    }
  }

  predicate Covers(bl: Block, i: nat, x: int) {
    bl.slab == i && bl.offset <= x < bl.offset + bl.len
  }

  lemma BlockEnds(s: State, b: BlockId)
    requires Placed(s) && b < |s.blocks|
    ensures s.blocks[b].offset + s.blocks[b].len == Used(s.blocks[..b + 1], s.blocks[b].slab)
  {
    assert s.blocks[..b + 1][..b] == s.blocks[..b];
  }

  /** Later blocks of a slab lie behind earlier ones, and all lie inside the slab. */
  lemma BlocksApart(s: State, b: BlockId, c: BlockId)
    requires Inv(s) && b < c < |s.blocks| && s.blocks[b].slab == s.blocks[c].slab
    ensures s.blocks[b].offset + s.blocks[b].len <= s.blocks[c].offset
    ensures s.blocks[c].offset + s.blocks[c].len <= s.slabs[s.blocks[c].slab].curofs
  {
    hide Lists, Used;
    BlockEnds(s, b);
    BlockEnds(s, c);
    assert s.blocks[..c][..b + 1] == s.blocks[..b + 1];
    UsedSplit(s.blocks[..c], b + 1, s.blocks[b].slab);
    UsedSplit(s.blocks, c + 1, s.blocks[b].slab);
  }

  /** The byte at `x` of slab `i` lies in one of these blocks. */
  lemma {:induction false} CoverOf(blocks: seq<Block>, i: nat, x: nat) returns (b: BlockId)
    requires forall k :: 0 <= k < |blocks| ==> blocks[k].offset == Used(blocks[..k], blocks[k].slab)
    requires x < Used(blocks, i)
    ensures b < |blocks| && Covers(blocks[b], i, x)
  {
    var n := |blocks| - 1;
    if x < Used(blocks[..n], i) {
      forall k | 0 <= k < n ensures blocks[..n][k].offset == Used(blocks[..n][..k], blocks[..n][k].slab) {
        assert blocks[..n][..k] == blocks[..k];
      }
      b := CoverOf(blocks[..n], i, x);
    } else {
      b := n;
    }
  }

  /** Every byte handed out belongs to exactly one block. */
  lemma ExactlyOneBlock(s: State, i: nat, x: nat) returns (b: BlockId)
    requires Inv(s) && i < |s.slabs| && x < s.slabs[i].curofs
    ensures b < |s.blocks| && Covers(s.blocks[b], i, x)
    ensures forall c :: 0 <= c < |s.blocks| && Covers(s.blocks[c], i, x) ==> c == b
  {
    b := CoverOf(s.blocks, i, x);
    forall c | 0 <= c < |s.blocks| && Covers(s.blocks[c], i, x) ensures c == b {
      if c < b { BlocksApart(s, c, b); } else if b < c { BlocksApart(s, b, c); }
    }
  }

  /** Requests that leave room above the slabs never wrap. */
  lemma SmallNeverWraps(s: State, op: Op)
    requires Inv(s) && Can(s, op)
    requires op.Take? ==> forall i :: 0 <= i < |s.slabs| ==> op.size + s.slabs[i].size < WORD
    ensures !Wraps(s, op)
  {
  }

  /** A request near the top of size_t is granted, and what it leaves is not a tiling. */
  lemma WrapExample(s: State)
    requires s == State([Slab(4096, 16, [], 0)], [Block(0, 0, 16, true)], false)
    ensures Inv(s) && Can(s, Take(WORD - 8, true)) && Wraps(s, Take(WORD - 8, true))
    ensures Step(s, Take(WORD - 8, true)).blocks[1] == Block(0, 16, WORD - 8, true)
    ensures Step(s, Take(WORD - 8, true)).slabs[0].curofs == 8
    ensures !Inv(Step(s, Take(WORD - 8, true)))
  {
    assert s.blocks[..0] == [] && Used(s.blocks, 0) == 16;
    assert ListRight(s, 0);
    assert Fit(s.blocks, [], WORD - 8) == 0;
    assert Found(s, WORD - 8, 0).None? && Found(s, WORD - 8, 1).None?;
    StepKeepsInvIff(s, Take(WORD - 8, true));
  }

  /** A call is refused, with memory to be had, exactly when nothing free fits and no slab has room. */
  lemma RefusedIff(s: State, size: Size)
    requires Inv(s)
    ensures Alloc(s, size, true).1.None? <==>
      && (forall b :: 0 <= b < |s.blocks| && s.blocks[b].len == size ==> s.blocks[b].active)
      && (forall i :: 0 <= i < |s.slabs| ==> !Room(s.slabs[i], size))
  {
    FoundIff(s, size, |s.slabs|);
  }

  /** What is handed out is active, has the length asked for, and was nobody's before. */
  lemma Granted(s: State, size: Size, mem: bool)
    requires Inv(s) && Alloc(s, size, mem).1.Some?
    ensures var (t, r) := Alloc(s, size, mem);
      && r.value < |t.blocks| && t.blocks[r.value].active && t.blocks[r.value].len == size
      && (r.value < |s.blocks| ==> !s.blocks[r.value].active && t.blocks[r.value].offset == s.blocks[r.value].offset)
      && (forall b :: 0 <= b < |s.blocks| && b != r.value ==> t.blocks[b] == s.blocks[b])
  {
    FoundIff(s, size, |s.slabs|);
  }

  /** The lock is left held exactly when a block could be cut but malloc failed; then every later call waits forever. */
  lemma StuckIff(s: State, op: Op)
    requires Inv(s) && Can(s, op)
    ensures Step(s, op).locked <==>
      op.Take? && !op.mem && Found(s, op.size, |s.slabs|).None? && FirstRoom(s.slabs, op.size, 0) < |s.slabs|
    ensures Step(s, op).locked ==> forall next :: !Can(Step(s, op), next)
  {
    if op.Take? { FoundIff(s, op.size, |s.slabs|); }
  }

  /** An inactive block of the same length waits in a later slab. */
  ghost predicate LaterFree(s: State, b: BlockId)
    requires b < |s.blocks|
  {
    exists c :: 0 <= c < |s.blocks| && s.blocks[c].slab > s.blocks[b].slab
      && s.blocks[c].len == s.blocks[b].len && !s.blocks[c].active
  }

  lemma {:induction false} FoundHead(s: State, i: nat, n: nat, size: Size)
    requires Lists(s) && Linked(s) && i < n <= |s.slabs| && s.slabs[i].free != []
    requires s.blocks[s.slabs[i].free[0]].len == size
    requires forall c :: 0 <= c < |s.blocks| && i < s.blocks[c].slab && s.blocks[c].len == size ==> s.blocks[c].active
    ensures Found(s, size, n) == Some(s.slabs[i].free[0])
  {
    if i < n - 1 {
      FoundHead(s, i, n - 1, size);
      FitIsFirst(s.blocks, s.slabs[n - 1].free, size);
      assert ListRight(s, n - 1);
    }
  }

  /**
   * A block given back is the one handed out next for its size, and the two
   * calls cancel out, exactly when no later slab holds another one to reuse.
   */
  lemma FreeThenAllocIff(s: State, b: BlockId, mem: bool)
    requires Inv(s) && b < |s.blocks| && s.blocks[b].active
    ensures Linked(Free(s, b))
    ensures Alloc(Free(s, b), s.blocks[b].len, mem) == (s, Some(b)) <==> !LaterFree(s, b)
    ensures LaterFree(s, b) ==> Alloc(Free(s, b), s.blocks[b].len, mem).1 != Some(b)
  {
    var t, i, size := Free(s, b), s.blocks[b].slab, s.blocks[b].len;
    FreeKeepsLists(s, b);
    ListsLinked(t);
    if LaterFree(s, b) {
      var c :| 0 <= c < |s.blocks| && s.blocks[c].slab > i && s.blocks[c].len == size && !s.blocks[c].active;
      assert !t.blocks[c].active && t.blocks[c] == s.blocks[c];
      FoundIff(t, size, |t.slabs|);
    } else {
      FoundHead(t, i, |t.slabs|, size);
      assert t.slabs[i].free[1..] == s.slabs[i].free;
      assert t.blocks[b := t.blocks[b].(active := true)] == s.blocks;
      assert Reuse(t, b).slabs == s.slabs;
    }
  }
}
