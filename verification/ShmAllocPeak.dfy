/** How much memory the slab allocator comes to use: the peak demand of each size, and no more. */
module ShmAllocPeak {
  import opened Seqs
  import opened ShmAlloc
  import opened ShmAllocTiling

  /** Blocks of one size ever cut. */
  function Made(blocks: seq<Block>, size: Size): nat {
    if blocks == [] then 0
    else Made(blocks[..|blocks| - 1], size) + One(blocks[|blocks| - 1].len == size)
  }

  /** Blocks of one size in use. */
  function Live(blocks: seq<Block>, size: Size): nat {
    if blocks == [] then 0
    else Live(blocks[..|blocks| - 1], size) + One(blocks[|blocks| - 1].active && blocks[|blocks| - 1].len == size)
  }

  function Max(a: nat, b: nat): nat { if a < b then b else a }

  /** The most blocks of one size in use at any time of the history. */
  function Peak(s: State, ops: seq<Op>, size: Size): nat
    requires Valid(s, ops)
    decreases |ops|
  {
    if ops == [] then Live(s.blocks, size)
    else Max(Peak(s, ops[..|ops| - 1], size), Live(Run(s, ops).blocks, size))
  }

  lemma {:induction false} LiveAtMostMade(blocks: seq<Block>, size: Size)
    ensures Live(blocks, size) <= Made(blocks, size)
  {
    if blocks != [] { LiveAtMostMade(blocks[..|blocks| - 1], size); }
  }

  lemma {:induction false} AllLive(blocks: seq<Block>, size: Size)
    requires forall b :: 0 <= b < |blocks| && blocks[b].len == size ==> blocks[b].active
    ensures Live(blocks, size) == Made(blocks, size)
  {
    if blocks != [] { AllLive(blocks[..|blocks| - 1], size); }
  }

  lemma {:induction false} Toggled(blocks: seq<Block>, b: BlockId, active: bool, size: Size)
    requires b < |blocks|
    ensures Made(blocks[b := blocks[b].(active := active)], size) == Made(blocks, size)
    ensures Live(blocks[b := blocks[b].(active := active)], size) + One(blocks[b].active && blocks[b].len == size) ==
      Live(blocks, size) + One(active && blocks[b].len == size)
  {
    var n := |blocks| - 1;
    var t := blocks[b := blocks[b].(active := active)];
    if b == n {
      assert t[..n] == blocks[..n];
    } else {
      assert t[..n] == blocks[..n][b := blocks[b].(active := active)];
      Toggled(blocks[..n], b, active, size);
    }
  }

  lemma Appended(blocks: seq<Block>, bl: Block, size: Size)
    ensures Made(blocks + [bl], size) == Made(blocks, size) + One(bl.len == size)
    ensures Live(blocks + [bl], size) == Live(blocks, size) + One(bl.active && bl.len == size)
  {
    assert (blocks + [bl])[..|blocks|] == blocks;
  }

  /** A call either leaves the number of blocks of a size alone, or adds one when all of them are in use. */
  lemma StepMade(s: State, op: Op, size: Size)
    requires Lists(s) && Can(s, op)
    ensures var t := Step(s, op);
      || Made(t.blocks, size) == Made(s.blocks, size)
      || (Made(t.blocks, size) == Made(s.blocks, size) + 1 == Live(t.blocks, size))
  {
    hide Made, Live;
    match op
    case Grow(_, _) =>
    case Take(n, mem) =>
      FoundIff(s, n, |s.slabs|);
      if Found(s, n, |s.slabs|).Some? {
        Toggled(s.blocks, Found(s, n, |s.slabs|).value, true, size);
      } else if FirstRoom(s.slabs, n, 0) < |s.slabs| && mem {
        Appended(s.blocks, Block(FirstRoom(s.slabs, n, 0), s.slabs[FirstRoom(s.slabs, n, 0)].curofs, n, true), size);
        if n == size { AllLive(s.blocks, size); }
      }
    case Give(b) => Toggled(s.blocks, b, false, size);
  }

  /** For every size, the blocks ever cut are as many as were in use at the peak. */
  lemma {:induction false} PeakPerSize(s: State, ops: seq<Op>, size: Size)
    requires Lists(s) && Linked(s) && s.blocks == [] && Valid(s, ops)
    ensures Made(Run(s, ops).blocks, size) == Peak(s, ops, size)
    decreases |ops|
  {
    hide Lists, Linked, Step, Can;
    if ops != [] {
      var rest := ops[..|ops| - 1];
      PeakPerSize(s, rest, size);
      RunKeepsLists(s, rest);
      StepMade(Run(s, rest), ops[|ops| - 1], size);
      LiveAtMostMade(Run(s, ops).blocks, size);
    }
  }

  // ------------------------------------------------------------------
  // One slab, one size: how the server sets it up
  // ------------------------------------------------------------------

  /** Every request of the history is for this size, and no slab is added. */
  predicate Uniform(ops: seq<Op>, size: Size) {
    forall k :: 0 <= k < |ops| ==> !ops[k].Grow? && (ops[k].Take? ==> ops[k].size == size)
  }

  predicate OneSize(s: State, size: Size) {
    |s.slabs| == 1 && forall b :: 0 <= b < |s.blocks| ==> s.blocks[b].len == size
  }

  lemma {:induction false} UniformRun(s: State, ops: seq<Op>, size: Size)
    requires Lists(s) && Linked(s) && OneSize(s, size) && Valid(s, ops) && Uniform(ops, size)
    ensures OneSize(Run(s, ops), size) && Run(s, ops).slabs[0].size == s.slabs[0].size
    decreases |ops|
  {
    if ops != [] {
      hide Lists, Linked;
      UniformRun(s, ops[..|ops| - 1], size);
    }
  }

  lemma {:induction false} UsedOneSize(blocks: seq<Block>, size: Size)
    requires forall b :: 0 <= b < |blocks| ==> blocks[b].len == size && blocks[b].slab == 0
    ensures Used(blocks, 0) == size * |blocks| && Made(blocks, size) == |blocks|
  {
    if blocks != [] { UsedOneSize(blocks[..|blocks| - 1], size); }
  }

  lemma UniformNeverWraps(s: State, op: Op, size: Size)
    requires Inv(s) && Can(s, op) && OneSize(s, size) && s.slabs[0].size + size < WORD
    requires op.Take? ==> op.size == size
    ensures !Wraps(s, op)
  {
    hide Lists, Linked;
  }

  lemma {:induction false} UniformTiles(s: State, ops: seq<Op>, size: Size)
    requires Inv(s) && OneSize(s, size) && Valid(s, ops) && Uniform(ops, size) && s.slabs[0].size + size < WORD
    ensures Inv(Run(s, ops)) && OneSize(Run(s, ops), size) && Run(s, ops).slabs[0].size == s.slabs[0].size
    decreases |ops|
  {
    hide Lists, Linked, Placed, OneSize, Step;
    UniformRun(s, ops, size);
    if ops != [] {
      var rest := ops[..|ops| - 1];
      UniformTiles(s, rest, size);
      UniformNeverWraps(Run(s, rest), ops[|ops| - 1], size);
      StepKeepsInvIff(Run(s, rest), ops[|ops| - 1]);
    }
  }

  ghost predicate Fresh(s: State, room: Size) {
    s == State([Slab(room, 0, [], 0)], [], false)
  }

  lemma FreshInv(s: State, room: Size, size: Size)
    requires Fresh(s, room)
    ensures Inv(s) && OneSize(s, size)
  {
    assert ListRight(s, 0);
  }

  /**
   * A slab for `n` blocks of the one size in use: after every history the memory
   * handed out is the peak demand times the size, and a request is refused
   * exactly when `n` blocks are in use.
   */
  lemma OneSizeBound(s: State, n: nat, size: Size, ops: seq<Op>)
    requires 0 < size && n * size + size < WORD && Fresh(s, n * size)
    requires Valid(s, ops) && Uniform(ops, size)
    ensures |Run(s, ops).slabs| == 1 && Linked(Run(s, ops))
    ensures Run(s, ops).slabs[0].curofs == size * Peak(s, ops, size)
    ensures Peak(s, ops, size) <= n
    ensures Alloc(Run(s, ops), size, true).1.None? <==> Live(Run(s, ops).blocks, size) == n
  {
    FreshInv(s, n * size, size);
    hide Lists, Linked, Peak, Live, Made, Run, Valid, Alloc, Used;
    UniformTiles(s, ops, size);
    PeakPerSize(s, ops, size);
    var r := Run(s, ops);
    OneSizeState(r, n, size);
  }

  lemma BlocksInSlab(s: State)
    requires Lists(s) && |s.slabs| == 1
    ensures forall b :: 0 <= b < |s.blocks| ==> s.blocks[b].slab == 0
  {
  }

  lemma OneSizeState(r: State, n: nat, size: Size)
    requires Inv(r) && OneSize(r, size) && 0 < size && r.slabs[0].size == n * size && n * size + size < WORD
    ensures r.slabs[0].curofs == size * Made(r.blocks, size) && Made(r.blocks, size) <= n
    ensures Alloc(r, size, true).1.None? <==> Live(r.blocks, size) == n
  {
    BlocksInSlab(r);
    UsedOneSize(r.blocks, size);
    var m := |r.blocks|;
    assert r.slabs[0].curofs == size * m <= n * size;
    CountBound(m, n, size);
    LiveAtMostMade(r.blocks, size);
    RefusedIff(r, size);
    LiveAllIff(r.blocks, size);
    RoomIff(r.slabs[0], m, n, size);
    hide Lists, Linked, Placed, Alloc, Live, Made, Room;
  }

  lemma CountBound(m: nat, n: nat, size: nat)
    requires size * m <= n * size && 0 < size
    ensures m <= n
  {
    assert size * (m - n) <= 0;
  }

  lemma RoomIff(sl: Slab, m: nat, n: nat, size: Size)
    requires sl.curofs == size * m && sl.size == n * size && m <= n && 0 < size && n * size + size < WORD
    ensures Room(sl, size) <==> m < n
  {
    assert size * m + size == size * (m + 1);
    if m < n { assert size * (m + 1) <= size * n; }
  }

  /** All blocks of a size are in use exactly when as many are in use as were cut. */
  lemma {:induction false} LiveAllIff(blocks: seq<Block>, size: Size)
    ensures Live(blocks, size) == Made(blocks, size) <==>
      forall b :: 0 <= b < |blocks| && blocks[b].len == size ==> blocks[b].active
  {
    if blocks != [] {
      var rest, last := blocks[..|blocks| - 1], blocks[|blocks| - 1];
      LiveAllIff(rest, size);
      LiveAtMostMade(rest, size);
      assert (forall b :: 0 <= b < |blocks| && blocks[b].len == size ==> blocks[b].active) <==>
        && (last.len == size ==> last.active)
        && (forall b :: 0 <= b < |rest| && rest[b].len == size ==> rest[b].active);
    }
  }
}
