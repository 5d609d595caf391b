/** struct shm_alloc_state and its functions in their imperative form. */
module ShmAllocator {
  import opened Seqs
  import opened ShmAlloc
  import opened ShmAllocTiling

  class Allocator {
    var slabs: seq<Slab>
    var blocks: seq<Block>
    var locked: bool

    ghost function View(): State
      reads this
    {
      State(slabs, blocks, locked)
    }

    ghost predicate Ok()
      reads this
    {
      Lists(View()) && Linked(View())
    }

    /** shm_alloc_init: one slab, if the system grants it. */
    constructor (slabSize: Size, granted: bool)
      ensures Ok() && View() == ShmAlloc.NewSlab(EMPTY, slabSize, granted)
      ensures Placed(View())
    {
      slabs, blocks, locked := [], [], false;
      new;
      var _ := NewSlab(slabSize, granted);
    }

    /** shm_alloc_new_slab; it returns NULL in either case. */
    method NewSlab(size: Size, granted: bool) returns (slab: Option<nat>)
      requires Ok() && !locked
      modifies this`slabs
      ensures slab == None
      ensures Ok() && View() == ShmAlloc.NewSlab(old(View()), size, granted)
    {
      StepKeepsLists(View(), Grow(size, granted));
      if !granted {
        return None;
      }
      slabs := slabs + [Slab(size, 0, [], 0)];
      return None;
    }

    /** The walk over one free list: the first block of that length. */
    method FirstIn(i: nat, size: Size) returns (k: nat)
      requires Ok() && i < |slabs|
      ensures k == Fit(blocks, slabs[i].free, size) <= |slabs[i].free|
    {
      var free := slabs[i].free;
      k := 0;
      assert free[k..] == free;
      while k < |free| && blocks[free[k]].len != size
        invariant 0 <= k <= |free| && AreBlocks(blocks, free[k..])
        invariant k + Fit(blocks, free[k..], size) == Fit(blocks, free, size)
      {
        assert free[k..][0] == free[k] && free[k..][1..] == free[k + 1..];
        k := k + 1;
      }
    }

    /** shm_alloc_lookup_freelist: the inner walk stops at a match, the outer one does not. */
    method LookupFreelist(size: Size) returns (found: Option<BlockId>)
      requires Ok()
      modifies this`slabs, this`blocks
      ensures Ok() && found == Found(old(View()), size, |old(slabs)|)
      ensures View() == if found.Some? then Reuse(old(View()), found.value) else old(View())
    {
      found := None;
      for i := 0 to |slabs|
        invariant View() == old(View()) && found == Found(View(), size, i)
      {
        var k := FirstIn(i, size);
        if k < |slabs[i].free| {
          found := Some(slabs[i].free[k]);
        }
      }
      if found.Some? {
        FoundIff(View(), size, |slabs|);
        ReuseKeepsLists(View(), found.value);
        ListsLinked(Reuse(View(), found.value));
        var b := found.value;
        var s := blocks[b].slab;
        slabs := slabs[s := slabs[s].(free := Remove(slabs[s].free, b), cnt := slabs[s].cnt - 1)];
        blocks := blocks[b := blocks[b].(active := true)];
      }
    }

    /** shm_alloc_alloc */
    method Alloc(size: Size, mem: bool) returns (r: Option<BlockId>)
      requires Ok() && !locked
      modifies this
      ensures Ok() && (View(), r) == ShmAlloc.Alloc(old(View()), size, mem)
    {
      StepKeepsLists(View(), Take(size, mem));
      LockKeepsLists(View(), true);
      LockFindsSame(View(), true, size, |slabs|);
      hide Lists, Linked, Room;
      locked := true;
      r := LookupFreelist(size);
      if r.Some? {
        locked := false;
        return;
      }
      var i := 0;
      while i < |slabs| && !Room(slabs[i], size)
        invariant i <= |slabs| && FirstRoom(slabs, size, i) == FirstRoom(slabs, size, 0)
      {
        i := i + 1;
      }
      if i < |slabs| {
        if !mem {
          return None;
        }
        r := Some(|blocks|);
        blocks := blocks + [Block(i, slabs[i].curofs, size, true)];
        slabs := slabs[i := slabs[i].(curofs := (slabs[i].curofs + size) % WORD)];
      }
      locked := false;
    }

    /** shm_alloc_free, by way of shm_alloc_add_freelist */
    method Free(b: BlockId)
      requires Ok() && !locked && b < |blocks| && blocks[b].active
      modifies this`slabs, this`blocks
      ensures Ok() && View() == ShmAlloc.Free(old(View()), b)
    {
      StepKeepsLists(View(), Give(b));
      var s := blocks[b].slab;
      blocks := blocks[b := blocks[b].(active := false)];
      slabs := slabs[s := slabs[s].(free := [b] + slabs[s].free, cnt := slabs[s].cnt + 1)];
    }
  }
}
