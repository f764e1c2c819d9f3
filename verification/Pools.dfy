/**
 The whole pool as a value: one or more arenas of one size, searched front to back, with a new
 arena put in front when nothing fits.  Alloc, Free and Clear say what one call does.
 */
module Pools {
  import opened Words
  import opened Layouts

  // ----- sizes

  const TWO_TO_64: nat := 0x1_0000_0000_0000_0000

  /** MP_ALIGN_SIZE(want + MP_CHUNKHEADER + MP_CHUNKEND), in 64-bit unsigned arithmetic. */
  function AlignSize(want: nat): nat {
    var n := (want + OVERHEAD) % TWO_TO_64;
    (n + WORD - n % WORD) % TWO_TO_64
  }

  /** The arithmetic is sound for exactly the requests that stay 48 bytes clear of 2^64. */
  lemma AlignSizeSound(want: nat)
    requires want < TWO_TO_64
    ensures AlignSize(want) >= want + OVERHEAD <==> want < TWO_TO_64 - 48
    ensures want < TWO_TO_64 - 48 ==> want + 41 <= AlignSize(want) <= want + 48 && AlignSize(want) % WORD == 0
    ensures want >= TWO_TO_64 - 48 ==> AlignSize(want) <= OVERHEAD
  {
    var n := want + OVERHEAD;
    if n >= TWO_TO_64 {
      assert n % TWO_TO_64 == n - TWO_TO_64;
    }
  }

  /** The size of an arena added by growth (lines 253-255). */
  function GrowthSize(max: nat, poolSize: nat): nat
    requires poolSize <= max
  {
    var add := max - poolSize;
    if add >= poolSize then poolSize else add
  }

  predicate InRange(start: Addr, size: nat, p: Addr) {
    start <= p < start + size
  }

  // ----- the pool

  datatype Pool = Pool(poolSize: nat, max: nat, total: nat, autoExtend: bool, arenas: seq<Layout>)

  /** What MemoryPoolInit checks, and room for a chunk. */
  predicate Configured(poolSize: nat, max: nat) {
    OVERHEAD < poolSize <= max
  }

  ghost predicate ArenaOk(s: Pool, l: Layout) {
    Inv(l) && l.end == l.start + s.poolSize
  }

  ghost predicate Disjoint(l: Layout, k: Layout) {
    l.end <= k.start || k.end <= l.start
  }

  ghost predicate PoolInv(s: Pool) {
    && Configured(s.poolSize, s.max)
    && (s.poolSize < s.max ==> s.autoExtend)
    && |s.arenas| >= 1
    && (forall i {:trigger s.arenas[i]} | 0 <= i < |s.arenas| :: ArenaOk(s, s.arenas[i]))
    && (forall i, j {:trigger s.arenas[i], s.arenas[j]} | 0 <= i < j < |s.arenas| :: Disjoint(s.arenas[i], s.arenas[j]))
    && s.total == |s.arenas| * s.poolSize
    && s.total < s.max + s.poolSize
  }

  /** MemoryPoolInit. */
  function Init(max: nat, poolSize: nat, start: Addr, garbage: bool): Pool {
    Pool(poolSize, max, poolSize, poolSize < max || garbage, [Fresh(start, poolSize)])
  }

  /** A new pool is sound exactly if its arena has room for a chunk. */
  lemma InitExact(max: nat, poolSize: nat, start: Addr, garbage: bool)
    requires poolSize <= max && NULL < start
    ensures PoolInv(Init(max, poolSize, start, garbage)) <==> OVERHEAD < poolSize
    ensures var s := Init(max, poolSize, start, garbage);
      && s.poolSize == poolSize && s.max == max && s.total == poolSize
      && (s.autoExtend <==> poolSize < max || garbage)
      && |s.arenas| == 1 && s.arenas[0].start == start && s.arenas[0].end == start + poolSize
      && s.arenas[0].free == [start] && s.arenas[0].live == []
  {
    if OVERHEAD < poolSize {
      InitSound(max, poolSize, start, garbage);
    }
  }

  lemma InitSound(max: nat, poolSize: nat, start: Addr, garbage: bool)
    requires Configured(poolSize, max) && NULL < start
    ensures PoolInv(Init(max, poolSize, start, garbage))
  {
    FreshSound(start, poolSize);
  }

  /** The first arena in list order that has a fitting chunk, or the number of arenas. */
  function FindArena(arenas: seq<Layout>, n: nat, from: nat := 0): (i: nat)
    requires from <= |arenas|
    ensures from <= i <= |arenas|
    ensures forall j | from <= j < i :: !HasFit(arenas[j], n)
    ensures i < |arenas| ==> HasFit(arenas[i], n)
    decreases |arenas| - from
  {
    if from == |arenas| || HasFit(arenas[from], n) then from else FindArena(arenas, n, from + 1)
  }

  /** p is the address of an allocated block. */
  ghost predicate IsLive(s: Pool, p: Addr) {
    exists i :: 0 <= i < |s.arenas| && LiveIn(s.arenas[i], p)
  }

  predicate LiveIn(l: Layout, p: Addr) {
    HEADER <= p && p - HEADER in l.live
  }

  /** p is the address of an allocated block whose chunk, header and footer included, has z bytes. */
  ghost predicate IsBlock(s: Pool, p: Addr, z: nat) {
    exists i :: 0 <= i < |s.arenas| && BlockIn(s.arenas[i], p, z)
  }

  predicate BlockIn(l: Layout, p: Addr, z: nat) {
    LiveIn(l, p) && p - HEADER in l.chunks && l.chunks[p - HEADER].size == z
  }

  /** Arenas at different places of the list share no address. */
  lemma ArenasApart(s: Pool, i: nat, j: nat)
    requires PoolInv(s) && i < |s.arenas| && j < |s.arenas|
    ensures ArenaOk(s, s.arenas[i]) && ArenaOk(s, s.arenas[j])
    ensures i == j || s.arenas[i].end <= s.arenas[j].start || s.arenas[j].end <= s.arenas[i].start
  {
    assert i < j ==> Disjoint(s.arenas[i], s.arenas[j]);
    assert j < i ==> Disjoint(s.arenas[j], s.arenas[i]);
  }

  /** A block lies in one arena only. */
  lemma OneArena(s: Pool, i: nat, j: nat, p: Addr)
    requires PoolInv(s) && i < |s.arenas| && j < |s.arenas|
    requires p in s.arenas[i].chunks && p in s.arenas[j].chunks
    ensures i == j
  {
    ArenasApart(s, i, j);
    assert ChunkOk(s.arenas[i], p) && ChunkOk(s.arenas[j], p);
  }

  predicate CanGrow(s: Pool, grant: Addr) {
    s.autoExtend && s.total < s.max && grant != NULL
  }

  function Grow(s: Pool, grant: Addr): Pool
    requires s.poolSize <= s.max
  {
    var add := GrowthSize(s.max, s.poolSize);
    s.(arenas := [Fresh(grant, add)] + s.arenas, total := s.total + add)
  }

  function Place(s: Pool, i: nat, n: nat): (Pool, Addr)
    requires i < |s.arenas| && HasFit(s.arenas[i], n)
  {
    var l := s.arenas[i];
    var f := FirstFit(l, n);
    (s.(arenas := s.arenas[i := Take(l, f, n)]), l.free[f] + HEADER)
  }

  /**
   MemoryPoolAlloc; grant is what the system's malloc would return, NULL when it fails.  A new arena
   may be too small for the request; the search then fails a second time, with nothing left to add.
   */
  ghost function Alloc(s: Pool, want: nat, grant: Addr): (Pool, Addr)
    requires Configured(s.poolSize, s.max)
  {
    var n := AlignSize(want);
    var i := FindArena(s.arenas, n);
    if want == 0 || n > s.poolSize then
      (s, NULL)
    else if i < |s.arenas| then
      Place(s, i, n)
    else if CanGrow(s, grant) then
      var g := Grow(s, grant);
      if HasFit(g.arenas[0], n) then Place(g, 0, n) else (g, NULL)
    else
      (s, NULL)
  }

  lemma AtLeastOnePool(s: Pool)
    requires PoolInv(s)
    ensures s.poolSize <= s.total
  {
    Times(1, |s.arenas|, s.poolSize);
  }

  /** A grown pool has room at its front for what its new arena is large enough for. */
  lemma GrownRoom(s: Pool, grant: Addr, n: nat)
    requires s.poolSize <= s.max
    ensures HasFit(Grow(s, grant).arenas[0], n) <==> n <= GrowthSize(s.max, s.poolSize)
  {
  }

  /** Sizes and total as MemoryPoolInit and any growth leave them, by short arenas too. */
  ghost predicate Grown(s: Pool) {
    && Configured(s.poolSize, s.max) && |s.arenas| >= 1
    && s.total == s.poolSize + (|s.arenas| - 1) * GrowthSize(s.max, s.poolSize)
  }

  lemma GrowGrown(s: Pool, grant: Addr)
    requires Grown(s)
    ensures Grown(Grow(s, grant))
  {
    OneMore(|s.arenas| - 1, GrowthSize(s.max, s.poolSize));
  }

  /** If what was just added is too small for an arena's worth, the maximum is reached: there is no third search. */
  lemma GrownFull(s: Pool, grant: Addr)
    requires Grown(s) && CanGrow(s, grant)
    ensures GrowthSize(s.max, s.poolSize) < s.poolSize ==> Grow(s, grant).total == s.max
  {
    TimesMono(1, |s.arenas| - 1, GrowthSize(s.max, s.poolSize));
  }

  /** Arenas added by growth have the size of the first. */
  predicate EvenGrowth(s: Pool) {
    s.poolSize < s.max ==> s.max >= 2 * s.poolSize
  }

  /** With arenas of one size the second search succeeds, in the new arena. */
  lemma GrownFits(s: Pool, grant: Addr, n: nat)
    requires PoolInv(s) && CanGrow(s, grant) && EvenGrowth(s) && n <= s.poolSize
    ensures GrowthSize(s.max, s.poolSize) == s.poolSize
    ensures HasFit(Grow(s, grant).arenas[0], n) && FindArena(Grow(s, grant).arenas, n) == 0
  {
    AtLeastOnePool(s);
    GrownRoom(s, grant, n);
  }

  /** The system's malloc puts an arena clear of the others. */
  ghost predicate GrantOk(s: Pool, grant: Addr) {
    grant != NULL ==> forall i {:trigger s.arenas[i]} | 0 <= i < |s.arenas| ::
      grant + s.poolSize <= s.arenas[i].start || s.arenas[i].end <= grant
  }

  /** What a sound allocation needs of its caller, of the system's malloc and, when it grows, of the sizes. */
  ghost predicate AllocLegal(s: Pool, want: nat, grant: Addr) {
    want < TWO_TO_64 - 48 && GrantOk(s, grant) && (grant != NULL ==> EvenGrowth(s))
  }

  lemma GrowSound(s: Pool, grant: Addr)
    requires PoolInv(s) && CanGrow(s, grant) && GrantOk(s, grant) && EvenGrowth(s)
    ensures PoolInv(Grow(s, grant))
    ensures forall p, z {:trigger IsBlock(s, p, z)} {:trigger IsBlock(Grow(s, grant), p, z)} ::
      IsBlock(Grow(s, grant), p, z) <==> IsBlock(s, p, z)
  {
    var g := Grow(s, grant);
    GrownFits(s, grant, 0);
    FreshSound(grant, s.poolSize);
    assert g.total == (|s.arenas| + 1) * s.poolSize;
    forall i | 0 <= i < |g.arenas| ensures ArenaOk(g, g.arenas[i]) {
      assert i > 0 ==> ArenaOk(s, s.arenas[i - 1]);
    }
    forall i, j | 0 <= i < j < |g.arenas| ensures Disjoint(g.arenas[i], g.arenas[j]) {
      assert g.arenas[j] == s.arenas[j - 1];
      assert i > 0 ==> Disjoint(s.arenas[i - 1], s.arenas[j - 1]);
    }
    forall p, z ensures IsBlock(g, p, z) <==> IsBlock(s, p, z) {
      GrowBlocks(s, grant, p, z);
    }
  }

  lemma GrowBlocks(s: Pool, grant: Addr, p: Addr, z: nat)
    requires s.poolSize <= s.max
    ensures IsBlock(Grow(s, grant), p, z) <==> IsBlock(s, p, z)
  {
    var g := Grow(s, grant);
    if i :| 0 <= i < |s.arenas| && BlockIn(s.arenas[i], p, z) {
      assert g.arenas[i + 1] == s.arenas[i];
    }
    if j :| 0 <= j < |g.arenas| && BlockIn(g.arenas[j], p, z) {
      assert j > 0 && g.arenas[j] == s.arenas[j - 1];
    }
  }

  /** No arena has a chunk of n bytes, and no new arena would. */
  ghost predicate NoRoom(s: Pool, n: nat, grant: Addr)
    requires s.poolSize <= s.max
  {
    && (forall i {:trigger s.arenas[i]} | 0 <= i < |s.arenas| :: !HasFit(s.arenas[i], n))
    && (CanGrow(s, grant) ==> GrowthSize(s.max, s.poolSize) < n)
  }

  /**
   Exactly when an allocation fails, whatever the request.  A failure changes nothing, except that
   an arena too small for the request may have been added.
   */
  lemma AllocFails(s: Pool, want: nat, grant: Addr)
    requires Grown(s)
    ensures Alloc(s, want, grant).1 == NULL <==>
      want == 0 || AlignSize(want) > s.poolSize || NoRoom(s, AlignSize(want), grant)
    ensures Grown(Alloc(s, want, grant).0)
    ensures Alloc(s, want, grant).1 == NULL ==>
      Alloc(s, want, grant).0 ==
        if want != 0 && AlignSize(want) <= s.poolSize && CanGrow(s, grant) then Grow(s, grant) else s
  {
    GrowGrown(s, grant);
    var n := AlignSize(want);
    var i := FindArena(s.arenas, n);
    if want != 0 && n <= s.poolSize {
      if i < |s.arenas| {
        assert HasFit(s.arenas[i], n);
      } else {
        NoArenaFits(s, n);
        if CanGrow(s, grant) {
          GrownRoom(s, grant, n);
          GrownFull(s, grant);
        }
      }
    }
  }

  lemma NoArenaFits(s: Pool, n: nat)
    requires FindArena(s.arenas, n) == |s.arenas|
    ensures forall i {:trigger s.arenas[i]} | 0 <= i < |s.arenas| :: !HasFit(s.arenas[i], n)
  {
  }

  lemma Replaced(s: Pool, i: nat, l: Layout)
    requires PoolInv(s) && i < |s.arenas| && Inv(l)
    requires l.start == s.arenas[i].start && l.end == s.arenas[i].end
    ensures PoolInv(s.(arenas := s.arenas[i := l]))
  {
    var r := s.(arenas := s.arenas[i := l]);
    forall j | 0 <= j < |r.arenas| ensures ArenaOk(r, r.arenas[j]) {
      assert ArenaOk(s, s.arenas[j]);
    }
    forall j, k | 0 <= j < k < |r.arenas| ensures Disjoint(r.arenas[j], r.arenas[k]) {
      assert Disjoint(s.arenas[j], s.arenas[k]);
    }
  }

  lemma PlaceSound(s: Pool, i: nat, n: nat) returns (z: nat)
    requires PoolInv(s) && i < |s.arenas| && HasFit(s.arenas[i], n) && OVERHEAD < n
    ensures PoolInv(Place(s, i, n).0) && Place(s, i, n).1 != NULL
    ensures n <= z <= n + OVERHEAD
    ensures forall y {:trigger IsBlock(s, Place(s, i, n).1, y)} :: !IsBlock(s, Place(s, i, n).1, y)
    ensures forall q, y {:trigger IsBlock(Place(s, i, n).0, q, y)} {:trigger IsBlock(s, q, y)} ::
      IsBlock(Place(s, i, n).0, q, y) <==> (q == Place(s, i, n).1 && y == z) || IsBlock(s, q, y)
  {
    var l, f := s.arenas[i], FirstFit(s.arenas[i], n);
    var r, p := Place(s, i, n).0, Place(s, i, n).1;
    var t, a := Take(l, f, n), l.free[f];
    assert ArenaOk(s, l) && a in l.free;
    TakeSound(l, f, n);
    Replaced(s, i, t);
    z := t.chunks[a].size;
    forall y ensures !IsBlock(s, p, y) {
      if j :| 0 <= j < |s.arenas| && BlockIn(s.arenas[j], p, y) {
        OneArena(s, i, j, a);
      }
    }
    forall q, y ensures IsBlock(r, q, y) <==> (q == p && y == z) || IsBlock(s, q, y) {
      TakeBlocks(l, f, n, q, y);
      PlaceBlocks(s, i, n, q, y);
    }
  }

  lemma PlaceBlocks(s: Pool, i: nat, n: nat, q: Addr, y: nat)
    requires i < |s.arenas| && HasFit(s.arenas[i], n)
    requires var l := s.arenas[i];
      var a, t := l.free[FirstFit(l, n)], Take(l, FirstFit(l, n), n);
      a in t.chunks && (BlockIn(t, q, y) <==> BlockIn(l, q, y) || (q == a + HEADER && y == t.chunks[a].size))
    ensures var l := s.arenas[i];
      var a, t := l.free[FirstFit(l, n)], Take(l, FirstFit(l, n), n);
      IsBlock(Place(s, i, n).0, q, y) <==> IsBlock(s, q, y) || (q == a + HEADER && y == t.chunks[a].size)
  {
    hide Take, BlockIn;
    var r := Place(s, i, n).0;
    if j :| 0 <= j < |r.arenas| && BlockIn(r.arenas[j], q, y) {
      assert j != i ==> r.arenas[j] == s.arenas[j];
    }
    if j :| 0 <= j < |s.arenas| && BlockIn(s.arenas[j], q, y) {
      assert j != i ==> r.arenas[j] == s.arenas[j];
    }
    assert r.arenas[i] == Take(s.arenas[i], FirstFit(s.arenas[i], n), n);
  }

  lemma TakeBlocks(l: Layout, f: nat, n: nat, q: Addr, y: nat)
    requires Inv(l) && f < |l.free| && OVERHEAD < n && Fits(l, l.free[f], n)
    ensures l.free[f] in Take(l, f, n).chunks
    ensures BlockIn(Take(l, f, n), q, y) <==>
      BlockIn(l, q, y) || (q == l.free[f] + HEADER && y == Take(l, f, n).chunks[l.free[f]].size)
  {
    TakeSound(l, f, n);
    assert HEADER <= q && q - HEADER in l.live ==> q - HEADER in l.chunks;
  }

  /**
   A successful allocation adds one block, not allocated before, with room for the request and
   41 to 88 bytes more; the other blocks stay as they are.
   */
  lemma AllocSound(s: Pool, want: nat, grant: Addr) returns (z: nat)
    requires PoolInv(s) && AllocLegal(s, want, grant)
    ensures PoolInv(Alloc(s, want, grant).0)
    ensures Alloc(s, want, grant).1 != NULL ==> want + 41 <= z <= want + 88
    ensures forall y {:trigger IsBlock(s, Alloc(s, want, grant).1, y)} ::
      Alloc(s, want, grant).1 != NULL ==> !IsBlock(s, Alloc(s, want, grant).1, y)
    ensures forall q, y {:trigger IsBlock(Alloc(s, want, grant).0, q, y)} {:trigger IsBlock(s, q, y)} ::
      Alloc(s, want, grant).1 != NULL ==>
        (IsBlock(Alloc(s, want, grant).0, q, y) <==> (q == Alloc(s, want, grant).1 && y == z) || IsBlock(s, q, y))
  {
    var n := AlignSize(want);
    z := 0;
    AlignSizeSound(want);
    if want != 0 && n <= s.poolSize {
      var i := FindArena(s.arenas, n);
      if i < |s.arenas| {
        z := PlaceSound(s, i, n);
      } else if CanGrow(s, grant) {
        GrowSound(s, grant);
        GrownFits(s, grant, n);
        z := PlaceSound(Grow(s, grant), 0, n);
      }
    }
  }

  /** No chunk of the free list before place f is large enough. */
  ghost predicate NoneBefore(l: Layout, f: nat, n: nat)
    requires f <= |l.free|
  {
    forall g {:trigger l.free[g]} | 0 <= g < f :: l.free[g] in l.chunks ==> l.chunks[l.free[g]].size < n
  }

  /**
   First fit: the block is cut from the first chunk that is large enough, in list order, of the first
   arena that has one; the other arenas stay as they are.
   */
  lemma AllocFirst(s: Pool, want: nat, grant: Addr, i: nat, f: nat)
    requires Configured(s.poolSize, s.max) && want != 0 && AlignSize(want) <= s.poolSize
    requires i < |s.arenas| && f < |s.arenas[i].free|
    requires s.arenas[i].free[f] in s.arenas[i].chunks
    requires s.arenas[i].chunks[s.arenas[i].free[f]].size >= AlignSize(want)
    requires NoneBefore(s.arenas[i], f, AlignSize(want))
    requires forall j {:trigger s.arenas[j]} | 0 <= j < i ::
      NoneBefore(s.arenas[j], |s.arenas[j].free|, AlignSize(want))
    ensures Fits(s.arenas[i], s.arenas[i].free[f], AlignSize(want))
    ensures Alloc(s, want, grant) ==
      (s.(arenas := s.arenas[i := Take(s.arenas[i], f, AlignSize(want))]), s.arenas[i].free[f] + HEADER)
  {
    var n := AlignSize(want);
    hide AlignSize, Take;
    FirstFitIs(s.arenas[i], n, f);
    forall j | 0 <= j < i ensures !HasFit(s.arenas[j], n) {
      assert NoneBefore(s.arenas[j], |s.arenas[j].free|, n);
      NoFit(s.arenas[j], n);
    }
    assert FindArena(s.arenas, n) == i;
  }

  /** When no arena has room and one is added, it goes in front, and the block is cut from its beginning. */
  lemma AllocAtFront(s: Pool, want: nat, grant: Addr)
    requires PoolInv(s) && AllocLegal(s, want, grant) && want != 0 && AlignSize(want) <= s.poolSize
    requires forall i {:trigger s.arenas[i]} | 0 <= i < |s.arenas| :: !HasFit(s.arenas[i], AlignSize(want))
    requires s.autoExtend && s.total < s.max && grant != NULL
    ensures var t := Alloc(s, want, grant).0;
      && Alloc(s, want, grant).1 == grant + HEADER
      && |t.arenas| == |s.arenas| + 1 && t.arenas[1..] == s.arenas
      && t.arenas[0].start == grant && t.arenas[0].end == grant + s.poolSize && t.arenas[0].live == [grant]
      && t.total == s.total + s.poolSize && t == s.(arenas := t.arenas, total := t.total)
  {
    var n := AlignSize(want);
    GrownFits(s, grant, n);
    hide PoolInv, AlignSize;
    assert FirstFit(Grow(s, grant).arenas[0], n) == 0;
  }

  /** The request is cut off a larger chunk, with no room for its own header and footer. */
  ghost predicate Tears(s: Pool, want: nat, grant: Addr)
    requires Configured(s.poolSize, s.max)
  {
    var n, i := AlignSize(want), FindArena(s.arenas, AlignSize(want));
    && 0 < want && n <= s.poolSize && n <= OVERHEAD
    && if i < |s.arenas| then Splits(s.arenas[i], s.arenas[i].free[FirstFit(s.arenas[i], n)], n)
       else CanGrow(s, grant) && s.poolSize - n > OVERHEAD
  }

  /** The pool grows by an arena shorter than the others. */
  ghost predicate GrowsShort(s: Pool, want: nat, grant: Addr)
    requires Configured(s.poolSize, s.max)
  {
    && 0 < want && AlignSize(want) <= s.poolSize && FindArena(s.arenas, AlignSize(want)) == |s.arenas|
    && CanGrow(s, grant) && !EvenGrowth(s)
  }

  /** An allocation leaves a sound pool exactly if it does neither. */
  lemma AllocKeepsExact(s: Pool, want: nat, grant: Addr)
    requires PoolInv(s) && GrantOk(s, grant)
    ensures PoolInv(Alloc(s, want, grant).0) <==> !Tears(s, want, grant) && !GrowsShort(s, want, grant)
  {
    var n := AlignSize(want);
    var i := FindArena(s.arenas, n);
    if 0 < want && n <= s.poolSize {
      if i < |s.arenas| {
        PlaceExact(s, i, n);
      } else if CanGrow(s, grant) && EvenGrowth(s) {
        GrowSound(s, grant);
        GrownFits(s, grant, n);
        PlaceExact(Grow(s, grant), 0, n);
      } else if CanGrow(s, grant) {
        ShortUnsound(s, grant, n);
      }
    }
  }

  lemma PlaceExact(s: Pool, i: nat, n: nat)
    requires PoolInv(s) && i < |s.arenas| && HasFit(s.arenas[i], n)
    ensures var l := s.arenas[i];
      PoolInv(Place(s, i, n).0) <==> OVERHEAD < n || !Splits(l, l.free[FirstFit(l, n)], n)
  {
    var l, f := s.arenas[i], FirstFit(s.arenas[i], n);
    assert ArenaOk(s, l);
    TakeExact(l, f, n);
    var t, r := Take(l, f, n), Place(s, i, n).0;
    assert t.start == l.start && t.end == l.end && r.arenas[i] == t;
    hide Take;
    if Inv(t) {
      Replaced(s, i, t);
    }
  }

  lemma ShortUnsound(s: Pool, grant: Addr, n: nat)
    requires PoolInv(s) && CanGrow(s, grant) && !EvenGrowth(s)
    ensures var g := Grow(s, grant);
      !PoolInv(g) && (HasFit(g.arenas[0], n) ==> !PoolInv(Place(g, 0, n).0))
  {
    var g := Grow(s, grant);
    assert !ArenaOk(g, g.arenas[0]);
    if HasFit(g.arenas[0], n) {
      var r := Place(g, 0, n).0;
      assert !ArenaOk(r, r.arenas[0]);
    }
  }

  /** The chunk handed out has room for the request and its overhead exactly if the size did not wrap. */
  lemma AllocRoomExact(s: Pool, want: nat, grant: Addr) returns (z: nat)
    requires PoolInv(s) && s.poolSize < TWO_TO_64 - 64 && 0 < want < TWO_TO_64 && Alloc(s, want, grant).1 != NULL
    ensures IsBlock(Alloc(s, want, grant).0, Alloc(s, want, grant).1, z)
    ensures want + OVERHEAD <= z <==> want < TWO_TO_64 - 48
  {
    var n := AlignSize(want);
    AlignSizeSound(want);
    var i := FindArena(s.arenas, n);
    if i < |s.arenas| {
      assert ArenaOk(s, s.arenas[i]);
      z := PlaceRoom(s, i, n);
    } else {
      FreshRoom(grant, GrowthSize(s.max, s.poolSize));
      z := PlaceRoom(Grow(s, grant), 0, n);
    }
  }

  /** Every free chunk lies in its arena. */
  ghost predicate Within(l: Layout, size: nat) {
    forall a {:trigger a in l.free} | a in l.free :: a in l.chunks && l.chunks[a].size <= size
  }

  lemma FreshRoom(start: Addr, size: nat)
    ensures Within(Fresh(start, size), size)
  {
  }

  lemma PlaceRoom(s: Pool, i: nat, n: nat) returns (z: nat)
    requires i < |s.arenas| && HasFit(s.arenas[i], n)
    requires Within(s.arenas[i], s.poolSize) || ArenaOk(s, s.arenas[i])
    ensures IsBlock(Place(s, i, n).0, Place(s, i, n).1, z)
    ensures n <= z <= s.poolSize
  {
    var l, f := s.arenas[i], FirstFit(s.arenas[i], n);
    var a, t := l.free[f], Take(l, f, n);
    assert a in l.free;
    if ArenaOk(s, l) {
      assert ChunkOk(l, a);
    }
    z := t.chunks[a].size;
    assert t.live[0] == a;
    assert BlockIn(Place(s, i, n).0.arenas[i], a + HEADER, z);
  }

  // ----- release

  /** The arena p points into (find_memory_list), taking every arena to be poolSize bytes long. */
  function ArenaOf(s: Pool, p: Addr, from: nat := 0): (i: nat)
    requires from <= |s.arenas|
    ensures from <= i <= |s.arenas|
    ensures i < |s.arenas| ==> InRange(s.arenas[i].start, s.poolSize, p)
    ensures forall j | from <= j < i :: !InRange(s.arenas[j].start, s.poolSize, p)
    decreases |s.arenas| - from
  {
    if from == |s.arenas| || InRange(s.arenas[from].start, s.poolSize, p) then from else ArenaOf(s, p, from + 1)
  }

  /** A block is looked up in the arena that holds it. */
  lemma ArenaOfBlock(s: Pool, p: Addr, i: nat)
    requires PoolInv(s) && i < |s.arenas| && LiveIn(s.arenas[i], p)
    ensures ArenaOf(s, p) == i
  {
    var k := ArenaOf(s, p);
    ArenasApart(s, i, if k < |s.arenas| then k else i);
    assert p - HEADER in s.arenas[i].live && ChunkOk(s.arenas[i], p - HEADER);
    assert InRange(s.arenas[i].start, s.poolSize, p);
  }

  lemma LiveArena(s: Pool, p: Addr)
    requires PoolInv(s) && IsLive(s, p)
    ensures ArenaOf(s, p) < |s.arenas| && LiveIn(s.arenas[ArenaOf(s, p)], p)
    ensures Inv(s.arenas[ArenaOf(s, p)])
  {
    var i :| 0 <= i < |s.arenas| && LiveIn(s.arenas[i], p);
    ArenaOfBlock(s, p, i);
    assert ArenaOk(s, s.arenas[i]);
  }

  /** A pool that may not grow has one arena only, so MemoryPoolFree need not search. */
  lemma OnlyArena(s: Pool)
    requires PoolInv(s) && !s.autoExtend
    ensures |s.arenas| == 1
  {
    if |s.arenas| >= 2 {
      Times(2, |s.arenas|, s.poolSize);
    }
  }

  /** MemoryPoolFree; freeing NULL is an error return that changes nothing. */
  ghost function Free(s: Pool, p: Addr): Pool
    requires PoolInv(s) && (p == NULL || IsLive(s, p))
  {
    if p == NULL then s else
      LiveArena(s, p);
      var i := ArenaOf(s, p);
      s.(arenas := s.arenas[i := Release(s.arenas[i], p - HEADER)])
  }

  /** A release takes away exactly one block; the other blocks stay as they are. */
  lemma FreeSound(s: Pool, p: Addr)
    requires PoolInv(s) && (p == NULL || IsLive(s, p))
    ensures PoolInv(Free(s, p))
    ensures forall q, y {:trigger IsBlock(Free(s, p), q, y)} {:trigger IsBlock(s, q, y)} ::
      IsBlock(Free(s, p), q, y) <==> q != p && IsBlock(s, q, y)
  {
    if p != NULL {
      LiveArena(s, p);
      var i := ArenaOf(s, p);
      ReleaseSound(s.arenas[i], p - HEADER);
      Replaced(s, i, Release(s.arenas[i], p - HEADER));
      forall q, y ensures IsBlock(Free(s, p), q, y) <==> q != p && IsBlock(s, q, y) {
        FreeBlocks(s, i, p, q, y);
      }
    }
  }

  lemma FreeBlocks(s: Pool, i: nat, p: Addr, q: Addr, y: nat)
    requires PoolInv(s) && i < |s.arenas| && LiveIn(s.arenas[i], p) && Inv(s.arenas[i])
    ensures IsBlock(s.(arenas := s.arenas[i := Release(s.arenas[i], p - HEADER)]), q, y) <==> q != p && IsBlock(s, q, y)
  {
    var l, r := s.arenas[i], s.(arenas := s.arenas[i := Release(s.arenas[i], p - HEADER)]);
    ReleaseBlocks(l, p - HEADER, q, y);
    if j :| 0 <= j < |r.arenas| && BlockIn(r.arenas[j], q, y) {
      assert BlockIn(s.arenas[j], q, y);
      if q == p {
        assert p - HEADER in l.live;
        OneArena(s, i, j, p - HEADER);
      }
    }
    if j :| 0 <= j < |s.arenas| && BlockIn(s.arenas[j], q, y) && q != p {
      assert BlockIn(r.arenas[j], q, y);
    }
  }

  lemma ReleaseBlocks(l: Layout, a: Addr, q: Addr, y: nat)
    requires Inv(l) && a in l.live
    ensures BlockIn(Release(l, a), q, y) <==> BlockIn(l, q, y) && q != a + HEADER
  {
    ReleaseSound(l, a);
    RemoveAtMembers(l.live, IndexOf(l.live, a));
    if HEADER <= q {
      assert q - HEADER in Release(l, a).live <==> q - HEADER in l.live && q - HEADER != a;
    }
  }

  /** MemoryPoolClear. */
  function Clear(s: Pool): Pool {
    s.(arenas := seq(|s.arenas|, i requires 0 <= i < |s.arenas| => Fresh(s.arenas[i].start, s.poolSize)))
  }

  lemma ClearSound(s: Pool)
    requires PoolInv(s)
    ensures PoolInv(Clear(s))
    ensures forall q, y {:trigger IsBlock(Clear(s), q, y)} :: !IsBlock(Clear(s), q, y)
    ensures Clear(s) == s.(arenas := Clear(s).arenas) && |Clear(s).arenas| == |s.arenas|
    ensures forall i {:trigger Clear(s).arenas[i]} | 0 <= i < |s.arenas| ::
      Clear(s).arenas[i].start == s.arenas[i].start && Clear(s).arenas[i].end == s.arenas[i].end
  {
    var c := Clear(s);
    forall i | 0 <= i < |c.arenas| ensures ArenaOk(c, c.arenas[i]) && c.arenas[i].live == [] {
      assert ArenaOk(s, s.arenas[i]);
      FreshSound(s.arenas[i].start, s.poolSize);
    }
    forall i, j | 0 <= i < j < |c.arenas| ensures Disjoint(c.arenas[i], c.arenas[j]) {
      ArenasApart(s, i, j);
    }
  }

  // ----- arenas that are not of one size

  /**
   Arenas as growth leaves them: the first one, last in the list, has poolSize bytes, the others have
   what growth adds, and at least gap bytes lie between any two.
   */
  ghost predicate Placed(poolSize: nat, max: nat, gap: nat, arenas: seq<Layout>)
    requires poolSize <= max
  {
    && (forall i {:trigger arenas[i]} | 0 <= i < |arenas| ::
          ArenaPlaced(arenas[i], PlacedSize(poolSize, max, i + 1 == |arenas|)))
    && (forall i, j {:trigger arenas[i], arenas[j]} | 0 <= i < j < |arenas| ::
          arenas[i].end + gap <= arenas[j].start || arenas[j].end + gap <= arenas[i].start)
  }

  /** An arena without room for a chunk never holds a block. */
  ghost predicate ArenaPlaced(l: Layout, size: nat) {
    l.end == l.start + size && if OVERHEAD < size then Inv(l) else l.live == []
  }

  function PlacedSize(poolSize: nat, max: nat, first: bool): nat
    requires poolSize <= max
  {
    if first then poolSize else GrowthSize(max, poolSize)
  }

  /** find_memory_list finds every block's own arena, wherever the arenas are. */
  ghost predicate LookupFinds(poolSize: nat, max: nat, gap: nat)
    requires poolSize <= max
  {
    forall s: Pool, i: nat, p: Addr {:trigger ArenaOf(s, p), LiveIn(s.arenas[i], p)} |
      s.poolSize == poolSize && Placed(poolSize, max, gap, s.arenas) && i < |s.arenas| && LiveIn(s.arenas[i], p) ::
      ArenaOf(s, p) == i
  }

  /**
   find_memory_list takes every arena to be poolSize bytes long.  It finds the arena of every block
   exactly when a short arena, the gap behind it and one header reach that far.
   */
  lemma LookupExact(poolSize: nat, max: nat, gap: nat)
    requires OVERHEAD < poolSize < max
    ensures LookupFinds(poolSize, max, gap) <==> GrowthSize(max, poolSize) + gap + HEADER >= poolSize
  {
    var g := GrowthSize(max, poolSize);
    if g + gap + HEADER >= poolSize {
      forall s: Pool, i: nat, p: Addr |
        s.poolSize == poolSize && Placed(poolSize, max, gap, s.arenas) && i < |s.arenas| && LiveIn(s.arenas[i], p)
        ensures ArenaOf(s, p) == i
      {
        LookupRight(s, max, gap, i, p);
      }
    } else {
      var s, p := LookupWrong(poolSize, max, gap);
    }
  }

  lemma LookupRight(s: Pool, max: nat, gap: nat, i: nat, p: Addr)
    requires OVERHEAD < s.poolSize < max && GrowthSize(max, s.poolSize) + gap + HEADER >= s.poolSize
    requires Placed(s.poolSize, max, gap, s.arenas) && i < |s.arenas| && LiveIn(s.arenas[i], p)
    ensures ArenaOf(s, p) == i
  {
    var k := ArenaOf(s, p);
    var l := s.arenas[i];
    assert p - HEADER in l.live && ChunkOk(l, p - HEADER);
    assert InRange(l.start, s.poolSize, p);
    if k < i {
      assert false;
    }
  }

  /** A block of the first arena that is looked up in the short arena in front of it. */
  lemma LookupWrong(poolSize: nat, max: nat, gap: nat) returns (s: Pool, p: Addr)
    requires OVERHEAD < poolSize < max && GrowthSize(max, poolSize) + gap + HEADER < poolSize
    ensures s.poolSize == poolSize && |s.arenas| == 2 && Placed(poolSize, max, gap, s.arenas)
    ensures LiveIn(s.arenas[1], p) && ArenaOf(s, p) == 0
  {
    var g := GrowthSize(max, poolSize);
    var first := 1 + g + gap;
    if OVERHEAD < g {
      FreshSound(1, g);
    }
    FreshSound(first, poolSize);
    var full := Take(Fresh(first, poolSize), 0, poolSize);
    TakeSound(Fresh(first, poolSize), 0, poolSize);
    s := Pool(poolSize, max, max, true, [Fresh(1, g), full]);
    p := first + HEADER;
    assert full.live == [first];
  }

  /** Line 130: what lies right of chunk a is taken for a chunk. */
  predicate GuardPasses(l: Layout, a: Addr, poolSize: nat) {
    a in l.chunks && a + l.chunks[a].size < l.start + poolSize
  }

  /** In every arena of the given size the merge after a release reads headers of its own arena only. */
  ghost predicate MergeStaysInside(poolSize: nat, size: nat) {
    forall l: Layout, a: Addr {:trigger GuardPasses(l, a, poolSize)} |
      Inv(l) && l.end == l.start + size && GuardPasses(l, a, poolSize) && l.chunks[a].free ::
      a + l.chunks[a].size in l.chunks
  }

  /**
   merge_free_chunk takes poolSize for the end of every arena too.  In an arena added by growth it
   stays inside exactly when max is at least twice poolSize, wherever the arena is, or the arena has
   no room for a chunk.
   */
  lemma MergeGuardExact(poolSize: nat, max: nat)
    requires OVERHEAD < poolSize < max
    ensures MergeStaysInside(poolSize, GrowthSize(max, poolSize)) <==>
      max >= 2 * poolSize || GrowthSize(max, poolSize) <= OVERHEAD
  {
    var g := GrowthSize(max, poolSize);
    if max >= 2 * poolSize || g <= OVERHEAD {
      forall l: Layout, a: Addr | Inv(l) && l.end == l.start + g && GuardPasses(l, a, poolSize) && l.chunks[a].free
        ensures a + l.chunks[a].size in l.chunks
      {
        assert ChunkOk(l, a);
      }
    } else {
      var l := MergeLeaves(poolSize, g);
    }
  }

  /** The only block of a short arena is freed: the merge goes on behind the arena's end. */
  lemma MergeLeaves(poolSize: nat, size: nat) returns (l: Layout)
    requires OVERHEAD < size < poolSize
    ensures Inv(l) && l.end == l.start + size && l.live == [l.start]
    ensures Inv(Release(l, l.start)) && GuardPasses(Release(l, l.start), l.start, poolSize)
    ensures Release(l, l.start).end == l.end && l.start in Release(l, l.start).chunks
    ensures Release(l, l.start).chunks[l.start].free && l.end !in Release(l, l.start).chunks
    ensures l.start + Release(l, l.start).chunks[l.start].size == l.end
    ensures !MergeStaysInside(poolSize, size)
  {
    FreshSound(1, size);
    TakeSound(Fresh(1, size), 0, size);
    l := Take(Fresh(1, size), 0, size);
    assert l.live == [1];
    ReleaseMembers(l, 1);
    var r := Release(l, 1);
    assert r.live == [];
    EmptyIsFresh(r);
    assert GuardPasses(r, 1, poolSize) && r.chunks[1].free && 1 + r.chunks[1].size !in r.chunks;
  }

  // ----- two allocations that lead there

  /** The largest request that a new arena takes as a whole. */
  function WholeArena(poolSize: nat): nat
    requires 64 <= poolSize
  {
    poolSize - poolSize % WORD - 48
  }

  /** The first allocation takes the whole arena, the second makes the pool grow. */
  ghost function Twice(max: nat, poolSize: nat, start: Addr, garbage: bool, grant: Addr): (Pool, Addr)
    requires 64 <= poolSize <= max
  {
    var first := Alloc(Init(max, poolSize, start, garbage), WholeArena(poolSize), NULL).0;
    Alloc(first, 1, grant)
  }

  lemma FirstTakesAll(max: nat, poolSize: nat, start: Addr, garbage: bool)
    requires 64 <= poolSize < max && poolSize < TWO_TO_64 - 64
    ensures var (s, p) := Alloc(Init(max, poolSize, start, garbage), WholeArena(poolSize), NULL);
      && p == start + HEADER && s == Init(max, poolSize, start, garbage).(arenas := s.arenas)
      && s.arenas == [Layout(start, start + poolSize, map[start := Chunk(poolSize, false)], [], [start])]
  {
    var l, n := Fresh(start, poolSize), poolSize - poolSize % WORD;
    assert AlignSize(WholeArena(poolSize)) == n;
    assert FirstFit(l, n) == 0 && FindArena([l], n) == 0;
    assert RemoveAt([start], 0) == [];
    assert Take(l, 0, n) == Layout(start, start + poolSize, map[start := Chunk(poolSize, false)], [], [start]);
  }

  lemma SecondGrows(max: nat, poolSize: nat, start: Addr, garbage: bool, grant: Addr)
    requires 64 <= poolSize < max && poolSize < TWO_TO_64 - 64 && grant != NULL
    ensures var (s, p) := Twice(max, poolSize, start, garbage, grant);
      && |s.arenas| == 2 && s.poolSize == poolSize
      && s.arenas[1] == Layout(start, start + poolSize, map[start := Chunk(poolSize, false)], [], [start])
      && s.arenas[0].start == grant
      && (48 <= GrowthSize(max, poolSize) ==>
            p == grant + HEADER && s.arenas[0] == Take(Fresh(grant, GrowthSize(max, poolSize)), 0, 48))
  {
    FirstTakesAll(max, poolSize, start, garbage);
    var s := Alloc(Init(max, poolSize, start, garbage), WholeArena(poolSize), NULL).0;
    hide Init, WholeArena, Take;
    GrowsFor48(s, grant);
  }

  lemma GrowsFor48(s: Pool, grant: Addr)
    requires Configured(s.poolSize, s.max) && 64 <= s.poolSize && |s.arenas| == 1 && s.arenas[0].free == []
    requires s.autoExtend && s.total == s.poolSize < s.max && grant != NULL
    ensures var (t, p) := Alloc(s, 1, grant);
      && |t.arenas| == 2 && t.poolSize == s.poolSize && t.arenas[1] == s.arenas[0] && t.arenas[0].start == grant
      && (48 <= GrowthSize(s.max, s.poolSize) ==>
            p == grant + HEADER && t.arenas[0] == Take(Fresh(grant, GrowthSize(s.max, s.poolSize)), 0, 48))
  {
    assert AlignSize(1) == 48;
    assert FirstFit(s.arenas[0], 48) == 0 && FindArena(s.arenas, 48, 1) == 1 && FindArena(s.arenas, 48) == 1;
    assert CanGrow(s, grant);
    assert FirstFit(Grow(s, grant).arenas[0], 48) == 0 || GrowthSize(s.max, s.poolSize) < 48;
  }

  /** In that run the first block is looked up in the second arena. */
  lemma LookupWrongRun(max: nat, poolSize: nat, start: Addr, garbage: bool, grant: Addr)
    requires 64 <= poolSize < max && poolSize < TWO_TO_64 - 64
    requires NULL < grant && grant + GrowthSize(max, poolSize) <= start && start + HEADER < grant + poolSize
    ensures var s := Twice(max, poolSize, start, garbage, grant).0;
      |s.arenas| == 2 && LiveIn(s.arenas[1], start + HEADER) && ArenaOf(s, start + HEADER) == 0
  {
    hide Twice, Take;
    SecondGrows(max, poolSize, start, garbage, grant);
  }

  /** And when the second block is freed, the merge goes on behind its arena's end. */
  lemma MergeLeavesRun(max: nat, poolSize: nat, start: Addr, garbage: bool, grant: Addr)
    requires 64 <= poolSize < max < 2 * poolSize && poolSize < TWO_TO_64 - 64
    requires NULL < grant && 48 <= GrowthSize(max, poolSize)
    ensures var (s, p) := Twice(max, poolSize, start, garbage, grant);
      && p == grant + HEADER && Inv(s.arenas[0]) && grant in s.arenas[0].live
      && var r := Release(s.arenas[0], grant);
      && r == Fresh(grant, GrowthSize(max, poolSize))
      && GuardPasses(r, grant, poolSize) && r.end !in r.chunks
  {
    hide Twice;
    var g := GrowthSize(max, poolSize);
    SecondGrows(max, poolSize, start, garbage, grant);
    FreshSound(grant, g);
    var l := Take(Fresh(grant, g), 0, 48);
    TakeSound(Fresh(grant, g), 0, 48);
    assert l.live == [grant];
    ReleaseMembers(l, grant);
    assert Release(l, grant).live == [];
    EmptyIsFresh(Release(l, grant));
  }

  // ----- runs

  datatype Op = OpAlloc(want: nat, grant: Addr) | OpFree(p: Addr) | OpClear

  ghost predicate Legal(s: Pool, op: Op) {
    match op
    case OpAlloc(want, grant) => AllocLegal(s, want, grant)
    case OpFree(p) => p == NULL || IsLive(s, p)
    case OpClear => true
  }

  ghost function Step(s: Pool, op: Op): Pool
    requires PoolInv(s) && Legal(s, op)
  {
    match op
    case OpAlloc(want, grant) => Alloc(s, want, grant).0
    case OpFree(p) => Free(s, p)
    case OpClear => Clear(s)
  }

  lemma StepSound(s: Pool, op: Op)
    requires PoolInv(s) && Legal(s, op)
    ensures PoolInv(Step(s, op)) && Step(s, op).max == s.max && Step(s, op).poolSize == s.poolSize
  {
    match op
    case OpAlloc(want, grant) => var z := AllocSound(s, want, grant);
    case OpFree(p) => FreeSound(s, p);
    case OpClear => ClearSound(s);
  }

  /** s' is reached from s by the calls ops, each legal where it is made. */
  ghost predicate Reaches(s: Pool, ops: seq<Op>, s': Pool)
    requires PoolInv(s)
    decreases |ops|
  {
    if ops == [] then s' == s else
      Legal(s, ops[0]) && (StepSound(s, ops[0]); Reaches(Step(s, ops[0]), ops[1..], s'))
  }

  /** Every run of allocations, releases and clears keeps the pool sound. */
  lemma {:induction false} RunSound(s: Pool, ops: seq<Op>, s': Pool)
    requires PoolInv(s) && Reaches(s, ops, s')
    ensures PoolInv(s') && s'.max == s.max && s'.poolSize == s.poolSize
    decreases |ops|
  {
    if ops != [] {
      StepSound(s, ops[0]);
      RunSound(Step(s, ops[0]), ops[1..], s');
    }
  }

  /** Whatever the run, once no block is left every arena is one full-size free chunk. */
  lemma RunsOutFresh(s: Pool, ops: seq<Op>, s': Pool, i: nat)
    requires PoolInv(s) && Reaches(s, ops, s') && i < |s'.arenas|
    requires forall p :: !IsLive(s', p)
    ensures s'.arenas[i] == Fresh(s'.arenas[i].start, s.poolSize)
  {
    RunSound(s, ops, s');
    var l := s'.arenas[i];
    assert ArenaOk(s', l);
    forall p | LiveIn(l, p) ensures IsLive(s', p) {
    }
    FirstMembers(l.live);
    assert l.live == [] || LiveIn(l, l.live[0] + HEADER);
    EmptyIsFresh(l);
  }

  // ----- accounting

  function Used(arenas: seq<Layout>): nat {
    if arenas == [] then 0 else Total(arenas[0].chunks, arenas[0].live) + Used(arenas[1..])
  }

  function Unused(arenas: seq<Layout>): nat {
    if arenas == [] then 0 else Total(arenas[0].chunks, arenas[0].free) + Unused(arenas[1..])
  }

  function BlockCount(arenas: seq<Layout>): nat {
    if arenas == [] then 0 else |arenas[0].live| + BlockCount(arenas[1..])
  }

  lemma {:induction false} UsedSnoc(arenas: seq<Layout>, i: nat)
    requires i < |arenas|
    ensures Used(arenas[..i + 1]) == Used(arenas[..i]) + Total(arenas[i].chunks, arenas[i].live)
    ensures BlockCount(arenas[..i + 1]) == BlockCount(arenas[..i]) + |arenas[i].live|
  {
    if i == 0 {
      assert arenas[..1] == [arenas[0]];
    } else {
      UsedSnoc(arenas[1..], i - 1);
      assert arenas[..i + 1][1..] == arenas[1..][..i];
      assert arenas[..i][1..] == arenas[1..][..i - 1];
    }
  }

  /** Free and allocated bytes add up to the memory taken from the system. */
  lemma Accounting(s: Pool)
    requires PoolInv(s)
    ensures Used(s.arenas) + Unused(s.arenas) == s.total
  {
    ArenasAddUp(s, s.arenas);
  }

  lemma {:induction false} ArenasAddUp(s: Pool, arenas: seq<Layout>)
    requires forall l {:trigger ArenaOk(s, l)} | l in arenas :: ArenaOk(s, l)
    ensures Used(arenas) + Unused(arenas) == |arenas| * s.poolSize
  {
    if arenas != [] {
      var l, rest := arenas[0], arenas[1..];
      ArenaAddsUp(s, l);
      ArenasAddUp(s, rest);
      OneMore(|rest|, s.poolSize);
    }
  }

  lemma ArenaAddsUp(s: Pool, l: Layout)
    requires ArenaOk(s, l)
    ensures Total(l.chunks, l.live) + Total(l.chunks, l.free) == s.poolSize
  {
  }

  lemma {:induction false} UsedUpdate(arenas: seq<Layout>, i: nat, l: Layout)
    requires i < |arenas|
    ensures Used(arenas[i := l]) + Total(arenas[i].chunks, arenas[i].live) == Used(arenas) + Total(l.chunks, l.live)
  {
    if i > 0 {
      assert arenas[i := l][1..] == arenas[1..][i - 1 := l];
      UsedUpdate(arenas[1..], i - 1, l);
    } else {
      assert arenas[i := l][1..] == arenas[1..];
    }
  }

  /** GetUsedMemory goes up by the chunk handed out ... */
  lemma AllocUsed(s: Pool, want: nat, grant: Addr) returns (z: nat)
    requires PoolInv(s) && AllocLegal(s, want, grant) && Alloc(s, want, grant).1 != NULL
    ensures IsBlock(Alloc(s, want, grant).0, Alloc(s, want, grant).1, z)
    ensures Used(Alloc(s, want, grant).0.arenas) == Used(s.arenas) + z
  {
    var n := AlignSize(want);
    AlignSizeSound(want);
    var i := FindArena(s.arenas, n);
    if i < |s.arenas| {
      z := PlaceUsed(s, i, n);
    } else {
      GrowSound(s, grant);
      GrownFits(s, grant, n);
      z := PlaceUsed(Grow(s, grant), 0, n);
      assert Grow(s, grant).arenas[1..] == s.arenas;
      assert Total(Grow(s, grant).arenas[0].chunks, []) == 0;
    }
  }

  lemma PlaceUsed(s: Pool, i: nat, n: nat) returns (z: nat)
    requires PoolInv(s) && i < |s.arenas| && HasFit(s.arenas[i], n) && OVERHEAD < n
    ensures IsBlock(Place(s, i, n).0, Place(s, i, n).1, z)
    ensures Used(Place(s, i, n).0.arenas) == Used(s.arenas) + z
  {
    var l, f := s.arenas[i], FirstFit(s.arenas[i], n);
    assert ArenaOk(s, l);
    TakeSound(l, f, n);
    TakeTotal(l, f, n);
    UsedUpdate(s.arenas, i, Take(l, f, n));
    z := Take(l, f, n).chunks[l.free[f]].size;
    assert BlockIn(Place(s, i, n).0.arenas[i], Place(s, i, n).1, z);
  }

  /** ... and down by the chunk given back. */
  lemma FreeUsed(s: Pool, p: Addr, z: nat)
    requires PoolInv(s) && IsBlock(s, p, z) && IsLive(s, p)
    ensures Used(Free(s, p).arenas) == Used(s.arenas) - z
  {
    var j :| 0 <= j < |s.arenas| && BlockIn(s.arenas[j], p, z);
    hide PoolInv, IsLive, IsBlock, Free;
    FreeIs(s, p, j);
    UsedReleased(s.arenas, j, p - HEADER);
  }

  lemma UsedReleased(arenas: seq<Layout>, i: nat, a: Addr)
    requires i < |arenas| && Inv(arenas[i]) && a in arenas[i].live && a in arenas[i].chunks
    ensures Used(arenas[i := Release(arenas[i], a)]) == Used(arenas) - arenas[i].chunks[a].size
  {
    ReleaseBytes(arenas[i], a);
    hide Inv, Release;
    UsedUpdate(arenas, i, Release(arenas[i], a));
  }

  lemma FreeIs(s: Pool, p: Addr, i: nat)
    requires PoolInv(s) && IsLive(s, p) && i < |s.arenas| && LiveIn(s.arenas[i], p)
    ensures Inv(s.arenas[i])
    ensures Free(s, p) == s.(arenas := s.arenas[i := Release(s.arenas[i], p - HEADER)])
  {
    ArenaOfBlock(s, p, i);
    assert ArenaOk(s, s.arenas[i]);
  }

  /** Growth overshoots the configured maximum by less than one arena, and not at all when arenas divide it. */
  lemma TotalBounded(s: Pool)
    requires PoolInv(s)
    ensures s.total < s.max + s.poolSize
    ensures s.max % s.poolSize == 0 ==> s.total <= s.max
  {
    if s.max % s.poolSize == 0 {
      var k, m, b := |s.arenas|, s.max / s.poolSize, s.poolSize;
      assert s.max == m * b;
      TimesMono(m + 1, k, b);
      TimesMono(k, m, b);
    }
  }
}
