/**
 The pool object of memorypool.cpp.  Each call is atomic (the mutex is not modelled); each is
 proved to do what Pools.Alloc, Pools.Free and Pools.Clear say.
 */
module MemoryPools {
  import opened Words
  import opened Layouts
  import opened Arenas
  import Pools

  ghost function LayoutsOf(ms: seq<Arena>): (ls: seq<Layout>)
    reads ms
    ensures |ls| == |ms| && forall i {:trigger ls[i]} | 0 <= i < |ms| :: ls[i] == ms[i].layout
  {
    if ms == [] then [] else [ms[0].layout] + LayoutsOf(ms[1..])
  }

  class MemoryPool {
    var last_id: nat
    var auto_extend: bool
    var mem_pool_size: nat
    var total_mem_pool_size: nat
    var max_mem_pool_size: nat
    var mlist: seq<Arena>

    ghost function State(): Pools.Pool
      reads this, mlist
    {
      Pools.Pool(mem_pool_size, max_mem_pool_size, total_mem_pool_size, auto_extend, LayoutsOf(mlist))
    }

    ghost predicate ArenaValid(a: Arena)
      reads this, a
    {
      a.Valid() && a.mem_pool_size == mem_pool_size
    }

    ghost predicate Valid()
      reads this, mlist
    {
      && (forall i, j {:trigger mlist[i], mlist[j]} | 0 <= i < j < |mlist| :: mlist[i] != mlist[j])
      && (forall a {:trigger ArenaValid(a)} | a in mlist :: ArenaValid(a))
      && Pools.PoolInv(State())
    }

    /**
     MemoryPoolInit, after the size check: start is where the system's malloc put the first arena.
     auto_extend is only written when the pool may grow, and otherwise keeps whatever was there.
     */
    constructor Init(max: nat, poolSize: nat, start: Addr, mem: Mem, garbage: bool)
      requires Pools.Configured(poolSize, max) && NULL < start
      ensures Valid() && fresh(mlist)
      ensures State() == Pools.Init(max, poolSize, start, garbage)
    {
      last_id := 1;
      auto_extend := poolSize < max || garbage;
      max_mem_pool_size := max;
      total_mem_pool_size, mem_pool_size := poolSize, poolSize;
      var first := new Arena(start, 0, poolSize, mem);
      mlist := [first];
      new;
      Pools.InitSound(max, poolSize, start, garbage);
      assert LayoutsOf(mlist) == [Fresh(start, poolSize)];
      assert ArenaValid(first);
    }

    /** One pass over the arenas from FIND_FREE_CHUNK on (lines 186-246). */
    method Search(n: nat) returns (p: Addr)
      requires Valid() && OVERHEAD < n
      modifies mlist
      ensures Valid()
      ensures var s := old(State());
        var i := Pools.FindArena(s.arenas, n);
        if i < |s.arenas| then (State(), p) == Pools.Place(s, i, n) && p != NULL else p == NULL && unchanged(mlist)
      ensures forall a {:trigger a in mlist} | a in mlist :: ForeignKept(old(a.mem), a.mem, old(a.layout), NULL)
    {
      hide Arena.Valid, Pools.PoolInv, Foreign;
      ghost var s := State();
      var i := 0;
      while i < |mlist|
        invariant i <= |mlist|
        invariant forall j | 0 <= j < i :: !HasFit(s.arenas[j], n)
        invariant unchanged(mlist) && Valid() && State() == s
      {
        RejectSound(i, n);
        if mem_pool_size - mlist[i].alloc_mem >= n {
          p := AllocateIn(i, n);
          if p != NULL {
            FindArenaIs(s.arenas, n, i);
            return;
          }
        }
        i := i + 1;
      }
      p := NULL;
    }

    lemma RejectSound(i: nat, n: nat)
      requires Valid() && i < |mlist|
      ensures mlist[i].alloc_mem <= mem_pool_size
      ensures mem_pool_size - mlist[i].alloc_mem < n ==> !HasFit(State().arenas[i], n)
    {
      var s := State();
      assert ArenaValid(mlist[i]) && s.arenas[i] == mlist[i].layout && Pools.ArenaOk(s, s.arenas[i]);
      if mem_pool_size - mlist[i].alloc_mem < n {
        QuickRejectSound(s.arenas[i], n);
      }
    }

    method AllocateIn(i: nat, n: nat) returns (p: Addr)
      requires Valid() && OVERHEAD < n && i < |mlist|
      modifies mlist[i]
      ensures Valid()
      ensures if HasFit(old(State().arenas[i]), n)
        then (State(), p) == Pools.Place(old(State()), i, n) && p != NULL
        else p == NULL && unchanged(mlist[i])
      ensures ForeignKept(old(mlist[i].mem), mlist[i].mem, old(mlist[i].layout), NULL)
    {
      ghost var s, l := State(), mlist[i].layout;
      assert ArenaValid(mlist[i]) && Pools.ArenaOk(s, s.arenas[i]);
      if HasFit(l, n) {
        ghost var z := Pools.PlaceSound(s, i, n);
      }
      label before:
      p := mlist[i].Allocate(n);
      StateUpdated@before(i);
    }

    /** When only arena i changed, the state changed only there. */
    twostate lemma StateUpdated(i: nat)
      requires old(Valid()) && i < |mlist| && unchanged(this)
      requires forall j | 0 <= j < |mlist| && j != i :: unchanged(mlist[j])
      requires ArenaValid(mlist[i])
      ensures State() == old(State()).(arenas := old(State()).arenas[i := mlist[i].layout])
      ensures forall a {:trigger ArenaValid(a)} | a in mlist :: ArenaValid(a)
    {
      assert LayoutsOf(mlist) == old(LayoutsOf(mlist))[i := mlist[i].layout];
      forall a | a in mlist ensures ArenaValid(a) {
        assert old(ArenaValid(a));
      }
    }

    method MemoryPoolAlloc(wantsize: nat, grant: Addr, grantMem: Mem) returns (p: Addr)
      requires Valid() && Pools.AllocLegal(State(), wantsize, grant)
      modifies this, mlist
      ensures Valid() && OnlyGrew(old(mlist))
      ensures (State(), p) == Pools.Alloc(old(State()), wantsize, grant)
      ensures forall a {:trigger a in old(mlist)} | a in old(mlist) ::
        ForeignKept(old(a.mem), a.mem, old(a.layout), NULL)
    {
      if wantsize == 0 {
        return NULL;
      }
      var total_needed_size := Pools.AlignSize(wantsize);
      Pools.AlignSizeSound(wantsize);
      if total_needed_size > mem_pool_size {
        return NULL;
      }
      p := FindFreeChunk(total_needed_size, grant, grantMem, wantsize);
    }

    /** At most one arena was put in front of those in ms. */
    twostate predicate OnlyGrew(ms: seq<Arena>)
      reads this
    {
      mlist == ms || (|mlist| == |ms| + 1 && mlist[1..] == ms && fresh(mlist[0]))
    }

    /** The retry loop: search, and when nothing fits, grow and search again (lines 186-263). */
    method FindFreeChunk(n: nat, grant: Addr, grantMem: Mem, ghost want: nat) returns (p: Addr)
      requires Valid() && Pools.AllocLegal(State(), want, grant) && want > 0
      requires n == Pools.AlignSize(want) && OVERHEAD < n <= mem_pool_size
      modifies this, mlist
      ensures Valid() && OnlyGrew(old(mlist))
      ensures (State(), p) == Pools.Alloc(old(State()), want, grant)
      ensures forall a {:trigger a in old(mlist)} | a in old(mlist) ::
        ForeignKept(old(a.mem), a.mem, old(a.layout), NULL)
    {
      hide Arena.Valid, Inv, Foreign;
      ghost var s, grown := State(), false;
      while true
        invariant Valid()
        invariant forall a {:trigger a in old(mlist)} | a in old(mlist) :: unchanged(a)
        invariant if grown then State() == Pools.Grow(s, grant) else State() == s
        invariant if grown then |mlist| == |old(mlist)| + 1 && mlist[1..] == old(mlist) && fresh(mlist[0])
          else mlist == old(mlist)
        invariant grown ==> Pools.CanGrow(s, grant) && Pools.FindArena(s.arenas, n) == |s.arenas|
        decreases max_mem_pool_size - total_mem_pool_size
      {
        if grown {
          Pools.GrownFits(s, grant, n);
        }
        label before:
        p := Search(n);
        forall a | a in old(mlist) ensures ForeignKept(old(a.mem), a.mem, old(a.layout), NULL) {
          assert a in mlist by {
            assert grown ==> a in mlist[1..];
          }
          assert old@before(a.mem) == old(a.mem) && old@before(a.layout) == old(a.layout);
        }
        if p != NULL {
          return;
        }
        var ok := TryExtend(grant, grantMem, want);
        if !ok {
          return;
        }
        grown := true;
      }
    }

    /** Lines 248-260: another arena, unless the limit is reached or malloc fails. */
    method TryExtend(grant: Addr, grantMem: Mem, ghost wantsize: nat) returns (ok: bool)
      requires Valid() && Pools.AllocLegal(State(), wantsize, grant)
      modifies this
      ensures Valid() && ok == Pools.CanGrow(old(State()), grant)
      ensures if ok
        then State() == Pools.Grow(old(State()), grant)
          && |mlist| == |old(mlist)| + 1 && mlist[1..] == old(mlist) && fresh(mlist[0])
        else unchanged(this)
      ensures ok ==> total_mem_pool_size > old(total_mem_pool_size) && max_mem_pool_size == old(max_mem_pool_size)
    {
      if !auto_extend || total_mem_pool_size >= max_mem_pool_size || grant == NULL {
        return false;
      }
      Pools.GrownFits(State(), grant, 0);
      Pools.GrowSound(State(), grant);
      var add_mem_sz := max_mem_pool_size - mem_pool_size;
      add_mem_sz := if add_mem_sz >= mem_pool_size then mem_pool_size else add_mem_sz;
      ExtendMemoryList(add_mem_sz, grant, grantMem);
      ok := true;
    }

    /** extend_memory_list, and the update of the total. */
    method ExtendMemoryList(size: nat, grant: Addr, grantMem: Mem)
      requires Valid() && Pools.CanGrow(State(), grant)
      requires size == Pools.GrowthSize(max_mem_pool_size, mem_pool_size) == mem_pool_size
      requires Pools.PoolInv(Pools.Grow(State(), grant))
      modifies this
      ensures Valid() && State() == Pools.Grow(old(State()), grant)
      ensures |mlist| == |old(mlist)| + 1 && mlist[1..] == old(mlist) && fresh(mlist[0])
      ensures max_mem_pool_size == old(max_mem_pool_size) && total_mem_pool_size == old(total_mem_pool_size) + size
    {
      var mm := new Arena(grant, last_id, size, grantMem);
      last_id := last_id + 1;
      ghost var ms := mlist;
      mlist := [mm] + mlist;
      total_mem_pool_size := total_mem_pool_size + size;
      forall a | a in mlist ensures ArenaValid(a) {
        assert a != mm ==> old(ArenaValid(a));
      }
      assert LayoutsOf(mlist) == [mm.layout] + old(LayoutsOf(mlist));
    }

    /** find_memory_list. */
    method FindMemoryList(p: Addr) returns (i: nat)
      requires Valid()
      ensures i == Pools.ArenaOf(State(), p)
    {
      i := 0;
      while i < |mlist|
        invariant i <= |mlist|
        invariant Pools.ArenaOf(State(), p) == Pools.ArenaOf(State(), p, i)
      {
        assert ArenaValid(mlist[i]) && State().arenas[i] == mlist[i].layout;
        if mlist[i].start <= p && mlist[i].start + mem_pool_size > p {
          break;
        }
        i := i + 1;
      }
    }

    /** 1 for NULL, and 0 otherwise. */
    method MemoryPoolFree(p: Addr) returns (r: int)
      requires Valid() && (p == NULL || Pools.IsLive(State(), p))
      modifies mlist
      ensures Valid() && State() == Pools.Free(old(State()), p)
      ensures r == if p == NULL then 1 else 0
      ensures forall a {:trigger a in mlist} | a in mlist ::
        unchanged(a) || (HEADER <= p && ForeignKept(old(a.mem), a.mem, old(a.layout), p - HEADER))
    {
      if p == NULL {
        return 1;
      }
      Pools.LiveArena(State(), p);
      var i := 0;
      if auto_extend {
        i := FindMemoryList(p);
      } else {
        Pools.OnlyArena(State());
      }
      FreeIn(i, p);
      r := 0;
    }

    method FreeIn(i: nat, p: Addr)
      requires Valid() && i < |mlist| && Pools.LiveIn(State().arenas[i], p) && i == Pools.ArenaOf(State(), p)
      requires Pools.IsLive(State(), p)
      modifies mlist[i]
      ensures Valid() && State() == Pools.Free(old(State()), p)
      ensures ForeignKept(old(mlist[i].mem), mlist[i].mem, old(mlist[i].layout), p - HEADER)
    {
      Pools.FreeSound(State(), p);
      assert ArenaValid(mlist[i]) && State().arenas[i] == mlist[i].layout;
      label before:
      mlist[i].Free(p, mem_pool_size);
      StateUpdated@before(i);
    }

    /** The owner of block p, which lies in arena i, writes words into it. */
    method StoreWords(i: nat, p: Addr, offset: nat, words: seq<nat>)
      requires Valid() && i < |mlist| && Pools.LiveIn(State().arenas[i], p) && p - HEADER in State().arenas[i].chunks
      requires OVERHEAD + offset + WORD * |words| <= State().arenas[i].chunks[p - HEADER].size
      modifies mlist[i]
      ensures Valid() && State() == old(State())
      ensures mlist[i].mem == StoreAll(old(mlist[i].mem), p + offset, words)
      ensures ForeignKept(old(mlist[i].mem), mlist[i].mem, mlist[i].layout, p - HEADER)
    {
      hide Pools.PoolInv, Represents, Inv, ForeignKept;
      assert ArenaValid(mlist[i]) && State().arenas[i] == mlist[i].layout;
      label before:
      mlist[i].StoreWords(p, offset, words);
      StateUpdated@before(i);
      assert State().arenas == old(State()).arenas;
    }

    /** MemoryPoolClear. */
    method MemoryPoolClear()
      requires Valid()
      modifies mlist
      ensures Valid() && State() == Pools.Clear(old(State()))
    {
      hide Arena.Valid, Pools.PoolInv;
      ghost var s := State();
      Pools.ClearSound(s);
      var i := 0;
      while i < |mlist|
        invariant i <= |mlist|
        invariant forall a {:trigger ArenaValid(a)} | a in mlist :: ArenaValid(a)
        invariant forall j {:trigger mlist[j]} | 0 <= j < i ::
          mlist[j].layout == Fresh(s.arenas[j].start, mem_pool_size)
        invariant forall j {:trigger mlist[j]} | i <= j < |mlist| :: mlist[j].layout == s.arenas[j]
      {
        label before:
        ClearArena(i);
        OthersValid@before(i);
        i := i + 1;
      }
      assert LayoutsOf(mlist) == Pools.Clear(s).arenas;
    }

    twostate lemma OthersValid(i: nat)
      requires i < |mlist| && unchanged(this) && ArenaValid(mlist[i])
      requires forall j | 0 <= j < |mlist| && j != i :: unchanged(mlist[j])
      requires forall a {:trigger old(ArenaValid(a))} | a in mlist :: old(allocated(a)) && old(ArenaValid(a))
      ensures forall a {:trigger ArenaValid(a)} | a in mlist :: ArenaValid(a)
    {
      forall a | a in mlist ensures ArenaValid(a) {
        assert old(ArenaValid(a));
      }
    }

    method ClearArena(i: nat)
      requires i < |mlist| && ArenaValid(mlist[i])
      modifies mlist[i]
      ensures ArenaValid(mlist[i]) && mlist[i].layout == Fresh(old(mlist[i].layout.start), mem_pool_size)
    {
      mlist[i].Clear();
    }

    method GetUsedMemory() returns (total_alloc: nat)
      requires Valid()
      ensures total_alloc == Pools.Used(State().arenas)
    {
      hide Represents, Inv;
      total_alloc := 0;
      var i := 0;
      ghost var ls := State().arenas;
      assert ls[..0] == [];
      while i < |mlist|
        invariant i <= |mlist|
        invariant total_alloc == Pools.Used(ls[..i])
      {
        assert ArenaValid(mlist[i]) && ls[i] == mlist[i].layout;
        Pools.UsedSnoc(ls, i);
        total_alloc := total_alloc + mlist[i].alloc_mem;
        i := i + 1;
      }
      assert ls[..i] == ls;
    }

    /** The bytes in use without the 40 bytes of header and footer of every block. */
    method GetProgMemory() returns (total_alloc_prog: nat)
      requires Valid()
      ensures total_alloc_prog + OVERHEAD * Pools.BlockCount(State().arenas) == Pools.Used(State().arenas)
    {
      hide Represents, Inv;
      total_alloc_prog := 0;
      var i := 0;
      ghost var ls := State().arenas;
      assert ls[..0] == [];
      while i < |mlist|
        invariant i <= |mlist|
        invariant total_alloc_prog + OVERHEAD * Pools.BlockCount(ls[..i]) == Pools.Used(ls[..i])
      {
        assert ArenaValid(mlist[i]) && ls[i] == mlist[i].layout;
        Pools.UsedSnoc(ls, i);
        total_alloc_prog := total_alloc_prog + mlist[i].alloc_prog_mem;
        i := i + 1;
      }
      assert ls[..i] == ls;
    }
  }

  /**
   MemoryPoolInit: NULL if the sizes are the wrong way round, or if the system's malloc fails for the
   pool's record or for the first arena, which is then at NULL.
   */
  method MemoryPoolInit(max: nat, poolSize: nat, recordOk: bool, start: Addr, mem: Mem, garbage: bool)
      returns (mp: MemoryPool?)
    requires OVERHEAD < poolSize
    ensures mp == null <==> poolSize > max || !recordOk || start == NULL
    ensures mp != null ==> fresh(mp) && fresh(mp.mlist) && mp.Valid()
    ensures mp != null ==> mp.State() == Pools.Init(max, poolSize, start, garbage)
  {
    if poolSize > max {
      return null;
    }
    if !recordOk {
      return null;
    }
    if start == NULL {
      return null;
    }
    mp := new MemoryPool.Init(max, poolSize, start, mem, garbage);
  }

  lemma {:induction false} FindArenaIs(arenas: seq<Layout>, n: nat, i: nat, from: nat := 0)
    requires from <= i < |arenas| && HasFit(arenas[i], n)
    requires forall j | from <= j < i :: !HasFit(arenas[j], n)
    ensures Pools.FindArena(arenas, n, from) == i
    decreases i - from
  {
    if from < i {
      FindArenaIs(arenas, n, i, from + 1);
    }
  }
}
