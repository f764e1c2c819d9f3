/**
 One arena of the pool: its bookkeeping fields, and the headers and footers stored inside
 the memory it hands out.

 The methods on memory carry out one stretch of memorypool.cpp each; Represents says what
 layout a memory stands for, Foreign what a method must leave alone.
 */
module Arenas {
  import opened Sequences
  import opened Words
  import opened Layouts

  // ----- how a layout is written into memory

  ghost predicate HeaderAt(m: Mem, l: Layout, a: Addr)
    requires a in l.chunks
  {
    Holds(m, a, l.chunks[a].size) && Holds(m, a + IS_FREE, if l.chunks[a].free then 1 else 0)
  }

  /** The last word of chunk a is its footer: a pointer back to its header. */
  ghost predicate FooterAt(m: Mem, l: Layout, a: Addr)
    requires a in l.chunks
  {
    l.chunks[a].size > OVERHEAD && Holds(m, a + l.chunks[a].size - FOOTER, a)
  }

  ghost predicate ChunkAt(m: Mem, l: Layout, a: Addr)
    requires a in l.chunks
  {
    HeaderAt(m, l, a) && (a + l.chunks[a].size != l.end ==> FooterAt(m, l, a))
  }

  /** Headers and footers are in place; the last chunk of the arena needs no footer. */
  ghost predicate Chunks(m: Mem, l: Layout) {
    forall a {:trigger ChunkAt(m, l, a)} | a in l.chunks :: ChunkAt(m, l, a)
  }

  /** The same for every chunk but x. */
  ghost predicate ChunksBut(m: Mem, l: Layout, x: Addr) {
    forall a {:trigger ChunkAt(m, l, a)} | a in l.chunks && a != x :: ChunkAt(m, l, a)
  }

  ghost predicate Represents(m: Mem, l: Layout, freeList: Addr, allocList: Addr) {
    && Chunks(m, l)
    && Linked(m, freeList, l.free)
    && Linked(m, allocList, l.live)
  }

  // ----- cells and what a store can reach

  /** t is one of the two link cells of the chunk header x. */
  ghost predicate LinkCell(l: Layout, x: Addr, t: Addr) {
    x in l.chunks && (t == x + PREV || t == x + NEXT)
  }

  /** The cell k lies in the payload of chunk a. */
  ghost predicate InPayload(l: Layout, a: Addr, k: Addr) {
    a in l.chunks && a + HEADER <= k && k + WORD + FOOTER <= a + l.chunks[a].size
  }

  /** k is no business of an operation on chunk x: outside the arena, or in another block's payload. */
  ghost predicate Foreign(l: Layout, x: Addr, k: Addr) {
    k + WORD <= l.start || l.end <= k || exists a :: a in l.live && a != x && InPayload(l, a, k)
  }

  ghost predicate ForeignKept(m: Mem, m': Mem, l: Layout, x: Addr) {
    forall k {:trigger Foreign(l, x, k)} | k in m && Foreign(l, x, k) :: k in m' && m'[k] == m[k]
  }

  lemma MembersSpaced(l: Layout, xs: seq<Addr>)
    requires Tiled(l) && Distinct(xs) && forall x | x in xs :: x in l.chunks
    ensures Spaced(xs)
  {
    forall i, j | 0 <= i < |xs| && 0 <= j < |xs| && i != j ensures Clear(xs[i], xs[j]) {
      Compare(l, xs[i], xs[j]);
    }
  }

  /** A link cell overlaps no size, flag or footer, and no link cell of another chunk. */
  lemma LinkCellApart(l: Layout, x: Addr, t: Addr, a: Addr)
    requires Tiled(l) && LinkCell(l, x, t) && a in l.chunks
    ensures Apart(a, t) && Apart(a + IS_FREE, t)
    ensures l.chunks[a].size > OVERHEAD && Apart(a + l.chunks[a].size - FOOTER, t)
    ensures a != x ==> Apart(a + PREV, t) && Apart(a + NEXT, t)
  {
    Compare(l, x, a);
  }

  lemma LinkCellNotForeign(l: Layout, x: Addr, t: Addr, y: Addr, k: Addr)
    requires Tiled(l) && Listed(l) && LinkCell(l, x, t) && Foreign(l, y, k)
    ensures Apart(k, t)
  {
    assert ChunkOk(l, x);
    if a :| a in l.live && a != y && InPayload(l, a, k) {
      Compare(l, x, a);
    }
  }

  /** Relinking lists disturbs no header, no footer and no payload. */
  lemma RelinkKeeps(m: Mem, m': Mem, l: Layout, x0: Addr, t0: Addr, x1: Addr, t1: Addr, x2: Addr, t2: Addr, y: Addr)
    requires Tiled(l) && Listed(l) && SameBut(m, m', t0, t1, t2)
    requires LinkCell(l, x0, t0) && LinkCell(l, x1, t1) && LinkCell(l, x2, t2)
    ensures forall a {:trigger ChunkAt(m', l, a)} | a in l.chunks && ChunkAt(m, l, a) :: ChunkAt(m', l, a)
    ensures ForeignKept(m, m', l, y)
    ensures forall a {:trigger SameLinks(m, m', a)} | a in l.chunks && a != x0 && a != x1 && a != x2 ::
      SameLinks(m, m', a)
  {
    forall a | a in l.chunks
      ensures ChunkAt(m, l, a) ==> ChunkAt(m', l, a)
      ensures a != x0 && a != x1 && a != x2 ==> SameLinks(m, m', a)
    {
      LinkCellApart(l, x0, t0, a);
      LinkCellApart(l, x1, t1, a);
      LinkCellApart(l, x2, t2, a);
    }
    forall k | k in m && Foreign(l, y, k) ensures k in m' && m'[k] == m[k] {
      LinkCellNotForeign(l, x0, t0, y, k);
      LinkCellNotForeign(l, x1, t1, y, k);
      LinkCellNotForeign(l, x2, t2, y, k);
    }
  }

  /** Words outside [lo, hi) are the same in m'. */
  ghost predicate SameOutside(m: Mem, m': Mem, lo: Addr, hi: Addr) {
    forall k | k in m && (k + WORD <= lo || hi <= k) :: k in m' && m'[k] == m[k]
  }

  /** Writing inside chunk a, which is free or being handed over, disturbs no other chunk. */
  lemma InsideKeeps(m: Mem, m': Mem, l: Layout, a: Addr, lo: Addr, hi: Addr)
    requires Tiled(l) && a in l.chunks && a <= lo && hi <= a + l.chunks[a].size
    requires SameOutside(m, m', lo, hi)
    ensures forall b {:trigger ChunkAt(m', l, b)} | b in l.chunks && b != a && ChunkAt(m, l, b) :: ChunkAt(m', l, b)
    ensures ForeignKept(m, m', l, a)
    ensures forall b {:trigger SameLinks(m, m', b)} | b in l.chunks && b != a :: SameLinks(m, m', b)
    ensures a + HEADER <= lo ==> SameLinks(m, m', a)
  {
    forall b | b in l.chunks && b != a
      ensures ChunkAt(m, l, b) ==> ChunkAt(m', l, b)
      ensures SameLinks(m, m', b)
    {
      Compare(l, a, b);
    }
    forall k | k in m && Foreign(l, a, k) ensures k in m' && m'[k] == m[k] {
      assert ChunkOk(l, a);
      if b :| b in l.live && b != a && InPayload(l, b, k) {
        Compare(l, a, b);
      }
    }
  }

  /** The C struct assignment *to = *from. */
  method CopyHeader(m: Mem, from: Addr, to: Addr) returns (m': Mem)
    requires from + HEADER <= to
    requires from in m && from + PREV in m && from + NEXT in m && from + IS_FREE in m
    ensures Holds(m', to, m[from]) && Holds(m', to + PREV, m[from + PREV])
    ensures Holds(m', to + NEXT, m[from + NEXT]) && Holds(m', to + IS_FREE, m[from + IS_FREE])
    ensures SameOutside(m, m', to, to + HEADER)
  {
    var m1 := Store(m, to, m[from]);
    assert Apart(from + PREV, to) && Apart(from + NEXT, to) && Apart(from + IS_FREE, to);
    var m2 := Store(m1, to + PREV, m1[from + PREV]);
    assert Apart(from + NEXT, to + PREV) && Apart(from + IS_FREE, to + PREV) && Apart(to, to + PREV);
    var m3 := Store(m2, to + NEXT, m2[from + NEXT]);
    assert Apart(from + IS_FREE, to + NEXT) && Apart(to, to + NEXT) && Apart(to + PREV, to + NEXT);
    m' := Store(m3, to + IS_FREE, m3[from + IS_FREE]);
    assert Apart(to, to + IS_FREE) && Apart(to + PREV, to + IS_FREE) && Apart(to + NEXT, to + IS_FREE);
    forall k | k in m && (k + WORD <= to || to + HEADER <= k) ensures k in m' && m'[k] == m[k] {
      assert Apart(k, to) && Apart(k, to + PREV) && Apart(k, to + NEXT) && Apart(k, to + IS_FREE);
    }
  }

  lemma ListsSpaced(l: Layout)
    requires Tiled(l) && Listed(l)
    ensures Spaced(l.free) && Spaced(l.live)
  {
    MembersSpaced(l, l.free);
    MembersSpaced(l, l.live);
  }

  lemma ForeignKeptTrans(m0: Mem, m1: Mem, m2: Mem, l: Layout, x: Addr)
    requires ForeignKept(m0, m1, l, x) && ForeignKept(m1, m2, l, x)
    ensures ForeignKept(m0, m2, l, x)
  {
  }

  /** Lines 205-210: the header and footer of what is left of chunk a. */
  method CarveRest(m: Mem, a: Addr, n: nat) returns (m': Mem)
    requires a in m && a + PREV in m && a + NEXT in m && Holds(m, a + IS_FREE, 1)
    requires OVERHEAD < n && n + OVERHEAD < m[a]
    ensures Holds(m', a + n, m[a] - n) && Holds(m', a + n + IS_FREE, 1)
    ensures Holds(m', a + n + PREV, m[a + PREV]) && Holds(m', a + n + NEXT, m[a + NEXT])
    ensures Holds(m', a + m[a] - FOOTER, a + n)
    ensures SameOutside(m, m', a + n, a + m[a])
  {
    var free := a + n;
    m' := CopyHeader(m, a, free);
    ghost var copied := m';
    assert Apart(free + PREV, free) && Apart(free + NEXT, free) && Apart(free + IS_FREE, free);
    m' := Store(m', free, m'[free] - n);
    var foot := free + m'[free] - FOOTER;
    assert Apart(free, foot) && Apart(free + PREV, foot) && Apart(free + NEXT, foot) && Apart(free + IS_FREE, foot);
    m' := Store(m', foot, free);
    forall k | k in m && (k + WORD <= a + n || a + m[a] <= k) ensures k in m' && m'[k] == m[k] {
      assert k in copied && Apart(k, free) && Apart(k, foot);
    }
  }

  /** Lines 220-224: the header and footer of the block handed out. */
  method CarveBlock(m: Mem, a: Addr, n: nat) returns (m': Mem)
    requires OVERHEAD < n
    ensures Holds(m', a, n) && Holds(m', a + IS_FREE, 0) && Holds(m', a + n - FOOTER, a)
    ensures SameOutside(m, m', a, a + n)
  {
    m' := Store(m, a + IS_FREE, 0);
    m' := Store(m', a, n);
    m' := Store(m', a + n - FOOTER, a);
  }

  /** Lines 203-224: cut n bytes off the front of the free chunk a; the rest takes its place in the free list. */
  method Carve(m: Mem, freeList: Addr, a: Addr, n: nat, ghost l: Layout, ghost i: nat, ghost allocList: Addr)
      returns (m': Mem, freeList': Addr)
    requires Inv(l) && Represents(m, l, freeList, allocList)
    requires i < |l.free| && l.free[i] == a && OVERHEAD < n && Fits(l, a, n) && Splits(l, a, n)
    ensures Linked(m', freeList', l.free[i := a + n]) && Linked(m', allocList, l.live)
    ensures Chunks(m', Take(l, i, n))
    ensures ForeignKept(m, m', l, a)
  {
    CarveReady(m, l, i, n, freeList, allocList);
    hide Inv, Represents, Linked, Chunks, ChunksBut, Spaced, ForeignKept, SameBut, Take;
    var m1 := CarveRest(m, a, n);
    CarvedRest(m, m1, l, i, n, freeList, allocList);
    var m2;
    m2, freeList' := Replace(m1, freeList, a + n, l.free, i);
    m' := CarveBlock(m2, a, n);
    CarvedBlock(m1, m2, m', l, i, n, freeList', allocList);
    ForeignKeptTrans(m, m1, m', l, a);
  }

  lemma CarveReady(m: Mem, l: Layout, i: nat, n: nat, freeList: Addr, allocList: Addr)
    requires Inv(l) && Represents(m, l, freeList, allocList)
    requires i < |l.free| && OVERHEAD < n && Fits(l, l.free[i], n) && Splits(l, l.free[i], n)
    ensures Spaced(l.free) && Spaced(l.free[i := l.free[i] + n])
    ensures Holds(m, l.free[i], l.chunks[l.free[i]].size) && Holds(m, l.free[i] + IS_FREE, 1)
    ensures Holds(m, l.free[i] + PREV, PrevOf(l.free, i)) && Holds(m, l.free[i] + NEXT, NextOf(l.free, i))
  {
    TakeSound(l, i, n);
    ListsSpaced(l);
    ListsSpaced(Take(l, i, n));
    assert l.free[i] in l.free && ChunkAt(m, l, l.free[i]) && LinkAt(m, l.free, i);
  }

  lemma CarvedRest(m: Mem, m1: Mem, l: Layout, i: nat, n: nat, freeList: Addr, allocList: Addr)
    requires Inv(l) && Represents(m, l, freeList, allocList)
    requires i < |l.free| && OVERHEAD < n && Fits(l, l.free[i], n) && Splits(l, l.free[i], n)
    requires SameOutside(m, m1, l.free[i] + n, l.free[i] + l.chunks[l.free[i]].size)
    ensures Linked(m1, freeList, l.free) && Linked(m1, allocList, l.live)
    ensures ChunksBut(m1, l, l.free[i]) && ForeignKept(m, m1, l, l.free[i])
  {
    var a := l.free[i];
    assert a in l.free && ChunkOk(l, a);
    InsideKeeps(m, m1, l, a, a + n, a + l.chunks[a].size);
    forall b | b in l.chunks && b != a ensures ChunkAt(m1, l, b) {
      assert ChunkAt(m, l, b);
    }
    LinkedFrame(m, m1, freeList, l.free);
    LinkedFrame(m, m1, allocList, l.live);
  }

  lemma CarvedBlock(m1: Mem, m2: Mem, m3: Mem, l: Layout, i: nat, n: nat, freeList: Addr, allocList: Addr)
    requires Inv(l) && i < |l.free| && OVERHEAD < n && Fits(l, l.free[i], n) && Splits(l, l.free[i], n)
    requires ChunksBut(m1, l, l.free[i])
    requires Holds(m1, l.free[i] + n, l.chunks[l.free[i]].size - n) && Holds(m1, l.free[i] + n + IS_FREE, 1)
    requires Holds(m1, l.free[i] + l.chunks[l.free[i]].size - FOOTER, l.free[i] + n)
    requires Linked(m2, freeList, l.free[i := l.free[i] + n]) && Linked(m1, allocList, l.live)
    requires SameBut(m1, m2, (if i == 0 then l.free[i] else l.free[i - 1]) + NEXT,
               (if i + 1 == |l.free| then l.free[i] else l.free[i + 1]) + PREV, l.free[i] + PREV)
    requires SameOutside(m2, m3, l.free[i], l.free[i] + n)
    requires Holds(m3, l.free[i], n) && Holds(m3, l.free[i] + IS_FREE, 0)
      && Holds(m3, l.free[i] + n - FOOTER, l.free[i])
    ensures Linked(m3, freeList, l.free[i := l.free[i] + n]) && Linked(m3, allocList, l.live)
    ensures Chunks(m3, Take(l, i, n))
    ensures ForeignKept(m1, m3, l, l.free[i])
  {
    var a, t := l.free[i], Take(l, i, n);
    assert a in l.free && ChunkOk(l, a);
    TakeSound(l, i, n);
    CarvedOthersKept(m1, m2, m3, l, i, n, allocList);
    assert ChunkAt(m1, t, a + n) && ChunkAt(m3, t, a);
    CarvedRestKept(m1, m2, m3, l, i, n, freeList);
    forall b | b in t.chunks ensures ChunkAt(m3, t, b) {
      assert b != a && b != a + n ==> ChunkAt(m3, l, b);
    }
  }

  lemma CarvedOthersKept(m1: Mem, m2: Mem, m3: Mem, l: Layout, i: nat, n: nat, allocList: Addr)
    requires Inv(l) && i < |l.free| && OVERHEAD < n && Fits(l, l.free[i], n) && Splits(l, l.free[i], n)
    requires ChunksBut(m1, l, l.free[i]) && Linked(m1, allocList, l.live)
    requires SameBut(m1, m2, (if i == 0 then l.free[i] else l.free[i - 1]) + NEXT,
               (if i + 1 == |l.free| then l.free[i] else l.free[i + 1]) + PREV, l.free[i] + PREV)
    requires SameOutside(m2, m3, l.free[i], l.free[i] + n)
    ensures ChunksBut(m3, l, l.free[i]) && Linked(m3, allocList, l.live) && ForeignKept(m1, m3, l, l.free[i])
  {
    var a := l.free[i];
    var x0, x1 := if i == 0 then a else l.free[i - 1], if i + 1 == |l.free| then a else l.free[i + 1];
    assert a in l.free && x0 in l.free && x1 in l.free && ChunkOk(l, a);
    RelinkKeeps(m1, m2, l, x0, x0 + NEXT, x1, x1 + PREV, a, a + PREV, a);
    LinkedFrame(m1, m2, allocList, l.live);
    InsideKeeps(m2, m3, l, a, a, a + n);
    LinkedFrame(m2, m3, allocList, l.live);
    ForeignKeptTrans(m1, m2, m3, l, a);
    forall b | b in l.chunks && b != a ensures ChunkAt(m3, l, b) {
      assert ChunkAt(m1, l, b) && ChunkAt(m2, l, b);
    }
  }

  lemma CarvedRestKept(m1: Mem, m2: Mem, m3: Mem, l: Layout, i: nat, n: nat, freeList: Addr)
    requires Inv(l) && i < |l.free| && OVERHEAD < n && Fits(l, l.free[i], n) && Splits(l, l.free[i], n)
    requires ChunkAt(m1, Take(l, i, n), l.free[i] + n)
    requires Linked(m2, freeList, l.free[i := l.free[i] + n])
    requires SameBut(m1, m2, (if i == 0 then l.free[i] else l.free[i - 1]) + NEXT,
               (if i + 1 == |l.free| then l.free[i] else l.free[i + 1]) + PREV, l.free[i] + PREV)
    requires SameOutside(m2, m3, l.free[i], l.free[i] + n)
    ensures ChunkAt(m3, Take(l, i, n), l.free[i] + n)
    ensures Linked(m3, freeList, l.free[i := l.free[i] + n])
  {
    var a, t := l.free[i], Take(l, i, n);
    var x0, x1 := if i == 0 then a else l.free[i - 1], if i + 1 == |l.free| then a else l.free[i + 1];
    TakeSound(l, i, n);
    assert t.free == l.free[i := a + n];
    assert i > 0 ==> t.free[i - 1] == x0 && x0 in t.free;
    assert i + 1 < |l.free| ==> t.free[i + 1] == x1 && x1 in t.free;
    RelinkKeeps(m1, m2, t, x0, x0 + NEXT, x1, x1 + PREV, a, a + PREV, a);
    assert ChunkAt(m2, t, a + n);
    InsideKeeps(m2, m3, t, a, a, a + n);
    forall x | x in t.free ensures SameLinks(m2, m3, x) {
      assert a in t.live && x != a;
    }
    LinkedFrame(m2, m3, freeList, t.free);
  }

  /** Lines 228-230: hand out the free chunk a as a whole. */
  method TakeWhole(m: Mem, freeList: Addr, a: Addr, ghost n: nat, ghost l: Layout, ghost i: nat, ghost allocList: Addr)
      returns (m': Mem, freeList': Addr)
    requires Inv(l) && Represents(m, l, freeList, allocList)
    requires i < |l.free| && l.free[i] == a && OVERHEAD < n && Fits(l, a, n) && !Splits(l, a, n)
    ensures Linked(m', freeList', RemoveAt(l.free, i)) && Linked(m', allocList, l.live)
    ensures Chunks(m', Take(l, i, n))
    ensures ForeignKept(m, m', l, a)
  {
    ListsSpaced(l);
    var m1;
    m1, freeList' := Delete(m, freeList, a, l.free, i);
    m' := Store(m1, a + IS_FREE, 0);
    TakenWhole(m, m1, l, i, n, freeList', allocList);
  }

  lemma TakenWhole(m: Mem, m1: Mem, l: Layout, i: nat, n: nat, freeList: Addr, allocList: Addr)
    requires Inv(l) && Chunks(m, l) && Linked(m, allocList, l.live)
    requires i < |l.free| && OVERHEAD < n && Fits(l, l.free[i], n) && !Splits(l, l.free[i], n)
    requires Linked(m1, freeList, RemoveAt(l.free, i))
    requires SameBut(m, m1, (if i == 0 then l.free[i] else l.free[i - 1]) + NEXT,
               (if i + 1 == |l.free| then l.free[i] else l.free[i + 1]) + PREV, l.free[i] + PREV)
    ensures var m2 := Store(m1, l.free[i] + IS_FREE, 0);
      && Linked(m2, freeList, RemoveAt(l.free, i)) && Linked(m2, allocList, l.live)
      && Chunks(m2, Take(l, i, n))
      && ForeignKept(m, m2, l, l.free[i])
  {
    var a, m2 := l.free[i], Store(m1, l.free[i] + IS_FREE, 0);
    var x0, x1 := if i == 0 then a else l.free[i - 1], if i + 1 == |l.free| then a else l.free[i + 1];
    assert a in l.free && x0 in l.free && x1 in l.free;
    FreeAndLive(l);
    RemoveAtMembers(l.free, i);
    hide Inv, Shape, Tiled, Listed, ForeignKept, Linked;
    RelinkKeeps(m, m1, l, x0, x0 + NEXT, x1, x1 + PREV, a, a + PREV, a);
    FlagStored(m1, m2, l, a, 0);
    LinkedFrame(m, m1, allocList, l.live);
    LinkedFrame(m1, m2, allocList, l.live);
    LinkedFrame(m1, m2, freeList, RemoveAt(l.free, i));
    ForeignKeptTrans(m, m1, m2, l, a);
    assert Chunks(m1, l);
    WholeFlagged(m1, m2, l, i, n);
  }

  lemma WholeFlagged(m1: Mem, m2: Mem, l: Layout, i: nat, n: nat)
    requires i < |l.free| && Fits(l, l.free[i], n) && !Splits(l, l.free[i], n) && Chunks(m1, l)
    requires forall b {:trigger ChunkAt(m2, l, b)} | b in l.chunks && b != l.free[i] && ChunkAt(m1, l, b) ::
      ChunkAt(m2, l, b)
    requires var a := l.free[i];
      && Holds(m2, a, l.chunks[a].size) && Holds(m2, a + IS_FREE, 0)
      && (a + l.chunks[a].size != l.end ==> FooterAt(m2, l, a))
    ensures Chunks(m2, Take(l, i, n))
  {
    var t := Take(l, i, n);
    forall b | b in t.chunks ensures ChunkAt(m2, t, b) {
      assert ChunkAt(m1, l, b);
      assert b != l.free[i] ==> ChunkAt(m2, l, b);
    }
  }

  /** Setting the is_free flag of chunk a touches nothing else. */
  lemma FlagStored(m: Mem, m': Mem, l: Layout, a: Addr, v: nat)
    requires Tiled(l) && a in l.chunks && m' == Store(m, a + IS_FREE, v)
    ensures forall b {:trigger ChunkAt(m', l, b)} | b in l.chunks && b != a && ChunkAt(m, l, b) :: ChunkAt(m', l, b)
    ensures forall b {:trigger SameLinks(m, m', b)} | b in l.chunks :: SameLinks(m, m', b)
    ensures ForeignKept(m, m', l, a)
    ensures ChunkAt(m, l, a) ==>
      && Holds(m', a, l.chunks[a].size) && Holds(m', a + IS_FREE, v)
      && (a + l.chunks[a].size != l.end ==> FooterAt(m', l, a))
  {
    assert ChunkOk(l, a);
    assert SameOutside(m, m', a + IS_FREE, a + HEADER) by {
      forall k: Addr | k in m && (k + WORD <= a + IS_FREE || a + HEADER <= k) ensures k in m' && m'[k] == m[k] {
        assert Apart(k, a + IS_FREE);
      }
    }
    InsideKeeps(m, m', l, a, a + IS_FREE, a + HEADER);
    assert Apart(a + PREV, a + IS_FREE) && Apart(a + NEXT, a + IS_FREE) && Apart(a, a + IS_FREE);
    assert Apart(a + l.chunks[a].size - FOOTER, a + IS_FREE);
  }

  /** MP_DLINKLIST_INS_FRT of chunk a into one list leaves the other list and all chunks in place. */
  lemma Enlisted(m: Mem, m': Mem, l: Layout, a: Addr, xs: seq<Addr>, head: Addr, ys: seq<Addr>, x: Addr)
    requires Tiled(l) && Listed(l) && a in l.chunks && Linked(m, head, ys)
    requires SameBut(m, m', a + PREV, a + NEXT, (if xs == [] then a else xs[0]) + PREV)
    requires xs != [] ==> xs[0] in l.chunks && xs[0] !in ys
    requires a !in ys && forall y | y in ys :: y in l.chunks
    ensures forall b {:trigger ChunkAt(m', l, b)} | b in l.chunks && ChunkAt(m, l, b) :: ChunkAt(m', l, b)
    ensures Linked(m', head, ys) && ForeignKept(m, m', l, x)
  {
    var x2 := if xs == [] then a else xs[0];
    RelinkKeeps(m, m', l, a, a + PREV, a, a + NEXT, x2, x2 + PREV, x);
    LinkedFrame(m, m', head, ys);
  }

  /** Lines 198-232: take the i-th free chunk, split or whole, into the alloc list. */
  method TakeChunk(m: Mem, freeList: Addr, allocList: Addr, a: Addr, n: nat, ghost l: Layout, ghost i: nat)
      returns (m': Mem, freeList': Addr, allocList': Addr)
    requires Inv(l) && Represents(m, l, freeList, allocList)
    requires i < |l.free| && l.free[i] == a && OVERHEAD < n && Fits(l, a, n)
    ensures Represents(m', Take(l, i, n), freeList', allocList')
    ensures Holds(m', a, Take(l, i, n).chunks[a].size)
    ensures ForeignKept(m, m', l, a)
  {
    assert ChunkAt(m, l, a);
    var m1;
    if m[a] - n > OVERHEAD {
      m1, freeList' := Carve(m, freeList, a, n, l, i, allocList);
    } else {
      m1, freeList' := TakeWhole(m, freeList, a, n, l, i, allocList);
    }
    BlockSpaced(l, i, n);
    m', allocList' := InsertFront(m1, allocList, a, l.live);
    BlockEnlisted(m1, m', l, i, n, freeList');
    ForeignKeptTrans(m, m1, m', l, a);
  }

  lemma BlockSpaced(l: Layout, i: nat, n: nat)
    requires Inv(l) && i < |l.free| && OVERHEAD < n && Fits(l, l.free[i], n)
    ensures Spaced([l.free[i]] + l.live) && l.free[i] != NULL
  {
    TakeSound(l, i, n);
    ListsSpaced(Take(l, i, n));
    assert ChunkOk(l, l.free[i]);
  }

  lemma BlockEnlisted(m: Mem, m': Mem, l: Layout, i: nat, n: nat, freeList: Addr)
    requires Inv(l) && i < |l.free| && OVERHEAD < n && Fits(l, l.free[i], n)
    requires SameBut(m, m', l.free[i] + PREV, l.free[i] + NEXT, (if l.live == [] then l.free[i] else l.live[0]) + PREV)
    requires Chunks(m, Take(l, i, n)) && Linked(m, freeList, Take(l, i, n).free)
    ensures Chunks(m', Take(l, i, n)) && Linked(m', freeList, Take(l, i, n).free)
    ensures l.free[i] in Take(l, i, n).chunks && Holds(m', l.free[i], Take(l, i, n).chunks[l.free[i]].size)
    ensures ForeignKept(m, m', l, l.free[i])
  {
    var a, t := l.free[i], Take(l, i, n);
    TakeSound(l, i, n);
    assert a in l.free && a in t.live;
    FirstMembers(l.live);
    if l.live != [] {
      assert t.live[1] == l.live[0] && l.live[0] in t.live;
    }
    Enlisted(m, m', t, a, l.live, freeList, t.free, a);
    Enlisted(m, m', l, a, l.live, NULL, [], a);
    forall b | b in t.chunks ensures ChunkAt(m', t, b) {
      assert ChunkAt(m, t, b);
    }
    assert ChunkAt(m', t, a);
  }

  /** MP_INIT_MEMORY_STRUCT, the header of the one chunk. */
  method InitHeader(m: Mem, a: Addr, size: nat) returns (m': Mem)
    ensures Holds(m', a, size) && Holds(m', a + PREV, NULL) && Holds(m', a + NEXT, NULL) && Holds(m', a + IS_FREE, 1)
    ensures SameOutside(m, m', a, a + HEADER)
  {
    var m1 := Store(m, a + IS_FREE, 1);
    var m2 := Store(m1, a, size);
    var m3 := Store(m2, a + PREV, NULL);
    m' := Store(m3, a + NEXT, NULL);
    assert Apart(a + IS_FREE, a) && Apart(a + IS_FREE, a + PREV) && Apart(a + IS_FREE, a + NEXT);
    assert Apart(a, a + PREV) && Apart(a, a + NEXT) && Apart(a + PREV, a + NEXT);
    forall k | k in m && (k + WORD <= a || a + HEADER <= k) ensures k in m' && m'[k] == m[k] {
      assert Apart(k, a) && Apart(k, a + PREV) && Apart(k, a + NEXT) && Apart(k, a + IS_FREE);
    }
  }

  /** Lines 283-285: chunk a moves from the alloc list to the front of the free list. */
  method MoveToFree(m: Mem, freeList: Addr, allocList: Addr, a: Addr, ghost l: Layout)
      returns (m': Mem, freeList': Addr, allocList': Addr)
    requires Shape(l) && Represents(m, l, freeList, allocList) && a in l.live
    ensures Represents(m', Freed(l, a), freeList', allocList')
    ensures Holds(m', a, l.chunks[a].size)
    ensures ForeignKept(m, m', l, a)
  {
    ListsSpaced(l);
    FreedSpaced(l, a);
    var m1, m2;
    m1, allocList' := Delete(m, allocList, a, l.live, IndexOf(l.live, a));
    OffAllocList(m, m1, l, a, freeList);
    m2, freeList' := InsertFront(m1, freeList, a, l.free);
    OntoFreeList(m1, m2, l, a, allocList');
    m' := Store(m2, a + IS_FREE, 1);
    FreedFlag(m2, m', l, a, freeList', allocList');
    ForeignKeptTrans(m, m1, m2, l, a);
    ForeignKeptTrans(m, m2, m', l, a);
  }

  lemma FreedSpaced(l: Layout, a: Addr)
    requires Shape(l) && a in l.live
    ensures Spaced([a] + l.free) && a != NULL
  {
    FreedKeepsShape(l, a);
    ListsSpaced(Freed(l, a));
    assert ChunkOk(l, a);
  }

  lemma OffAllocList(m: Mem, m': Mem, l: Layout, a: Addr, freeList: Addr)
    requires Shape(l) && Chunks(m, l) && Linked(m, freeList, l.free) && a in l.live
    requires var i := IndexOf(l.live, a);
      SameBut(m, m', (if i == 0 then a else l.live[i - 1]) + NEXT,
        (if i + 1 == |l.live| then a else l.live[i + 1]) + PREV, a + PREV)
    ensures Chunks(m', l) && Linked(m', freeList, l.free) && ForeignKept(m, m', l, a)
  {
    var i := IndexOf(l.live, a);
    var x0, x1 := if i == 0 then a else l.live[i - 1], if i + 1 == |l.live| then a else l.live[i + 1];
    assert x0 in l.live && x1 in l.live;
    RelinkKeeps(m, m', l, x0, x0 + NEXT, x1, x1 + PREV, a, a + PREV, a);
    LinkedFrame(m, m', freeList, l.free);
    forall b | b in l.chunks ensures ChunkAt(m', l, b) {
      assert ChunkAt(m, l, b);
    }
  }

  lemma OntoFreeList(m: Mem, m': Mem, l: Layout, a: Addr, allocList: Addr)
    requires Shape(l) && Chunks(m, l) && a in l.live && Linked(m, allocList, Freed(l, a).live)
    requires SameBut(m, m', a + PREV, a + NEXT, (if l.free == [] then a else l.free[0]) + PREV)
    ensures Chunks(m', l) && Linked(m', allocList, Freed(l, a).live) && ForeignKept(m, m', l, a)
  {
    RemoveAtMembers(l.live, IndexOf(l.live, a));
    FirstMembers(l.free);
    Enlisted(m, m', l, a, l.free, allocList, Freed(l, a).live, a);
    forall b | b in l.chunks ensures ChunkAt(m', l, b) {
      assert ChunkAt(m, l, b);
    }
  }

  lemma FreedFlag(m: Mem, m': Mem, l: Layout, a: Addr, freeList: Addr, allocList: Addr)
    requires Shape(l) && Chunks(m, l) && a in l.live && m' == Store(m, a + IS_FREE, 1)
    requires Linked(m, freeList, Freed(l, a).free) && Linked(m, allocList, Freed(l, a).live)
    ensures Represents(m', Freed(l, a), freeList, allocList)
    ensures Holds(m', a, l.chunks[a].size) && ForeignKept(m, m', l, a)
  {
    var f := Freed(l, a);
    FreedKeepsShape(l, a);
    FlagStored(m, m', l, a, 1);
    LinkedFrame(m, m', freeList, f.free);
    LinkedFrame(m, m', allocList, f.live);
    assert ChunkAt(m, l, a);
    forall b | b in f.chunks ensures ChunkAt(m', f, b) {
      assert ChunkAt(m, l, b);
      assert b != a ==> ChunkAt(m', l, b);
    }
  }

  // ----- merging

  /** Half-way through a merge: the run's first chunk p has its new size but not yet its footer. */
  ghost predicate Merging(m: Mem, l: Layout, p: Addr, freeList: Addr, allocList: Addr) {
    && p in l.chunks && l.chunks[p].free && HeaderAt(m, l, p)
    && ChunksBut(m, l, p)
    && Linked(m, freeList, l.free) && Linked(m, allocList, l.live)
  }

  /** Lines 131-133: chunk p takes over its free right neighbour q. */
  method AbsorbRight(m: Mem, freeList: Addr, p: Addr, q: Addr, ghost l: Layout, ghost allocList: Addr)
      returns (m': Mem, freeList': Addr)
    requires Shape(l) && FreePair(l, p) && q == p + l.chunks[p].size
    requires Merging(m, l, p, freeList, allocList)
    ensures q in l.free && Merging(m', Absorb(l, p), p, freeList', allocList)
    ensures Holds(m', q, l.chunks[q].size)
    ensures ForeignKept(m, m', l, NULL)
  {
    assert q in l.free && ChunkOk(l, p) && ChunkAt(m, l, q);
    ListsSpaced(l);
    var m1;
    m1, freeList' := Delete(m, freeList, q, l.free, IndexOf(l.free, q));
    ghost var i := IndexOf(l.free, q);
    ghost var x0, x1 := if i == 0 then q else l.free[i - 1], if i + 1 == |l.free| then q else l.free[i + 1];
    assert x0 in l.free && x1 in l.free;
    Unlinked(m, m1, l, p, q, x0, x1, allocList);
    m' := Store(m1, p, m1[p] + m1[q]);
    Absorbed(m1, m', l, p, freeList', allocList);
    ForeignKeptTrans(m, m1, m', l, NULL);
  }

  lemma Unlinked(m: Mem, m1: Mem, l: Layout, p: Addr, q: Addr, x0: Addr, x1: Addr, allocList: Addr)
    requires Shape(l) && p in l.chunks && ChunksBut(m, l, p) && HeaderAt(m, l, p)
    requires p != q && Linked(m, allocList, l.live)
    requires x0 in l.free && x1 in l.free && q in l.free
    requires SameBut(m, m1, x0 + NEXT, x1 + PREV, q + PREV)
    ensures ChunksBut(m1, l, p) && HeaderAt(m1, l, p) && ChunkAt(m1, l, q)
    ensures Linked(m1, allocList, l.live) && ForeignKept(m, m1, l, NULL)
  {
    FreeAndLive(l);
    hide Shape, Tiled, Listed, ForeignKept, HeaderAt, Linked;
    RelinkKeeps(m, m1, l, x0, x0 + NEXT, x1, x1 + PREV, q, q + PREV, NULL);
    HeaderSurvives(m, m1, l, p, x0, x0 + NEXT, x1, x1 + PREV, q, q + PREV);
    LinkedFrame(m, m1, allocList, l.live);
    forall b | b in l.chunks && b != p ensures ChunkAt(m1, l, b) {
      assert ChunkAt(m, l, b);
    }
  }

  lemma HeaderSurvives(
      m: Mem, m': Mem, l: Layout, p: Addr, x0: Addr, t0: Addr, x1: Addr, t1: Addr, x2: Addr, t2: Addr)
    requires Tiled(l) && p in l.chunks && HeaderAt(m, l, p) && SameBut(m, m', t0, t1, t2)
    requires LinkCell(l, x0, t0) && LinkCell(l, x1, t1) && LinkCell(l, x2, t2)
    ensures HeaderAt(m', l, p)
  {
    LinkCellApart(l, x0, t0, p);
    LinkCellApart(l, x1, t1, p);
    LinkCellApart(l, x2, t2, p);
  }

  lemma FreeAndLive(l: Layout)
    requires Shape(l)
    ensures Tiled(l) && Listed(l)
    ensures forall x {:trigger x in l.free} | x in l.free :: x in l.chunks && l.chunks[x].free
    ensures forall x {:trigger x in l.live} | x in l.live :: x in l.chunks && !l.chunks[x].free
  {
  }

  lemma Absorbed(m: Mem, m': Mem, l: Layout, p: Addr, freeList: Addr, allocList: Addr)
    requires Shape(l) && FreePair(l, p)
    requires p + l.chunks[p].size in l.free
    requires ChunksBut(m, l, p) && HeaderAt(m, l, p) && ChunkAt(m, l, p + l.chunks[p].size)
    requires Linked(m, freeList, RemoveAt(l.free, IndexOf(l.free, p + l.chunks[p].size)))
      && Linked(m, allocList, l.live)
    requires m' == Store(m, p, l.chunks[p].size + l.chunks[p + l.chunks[p].size].size)
    ensures Merging(m', Absorb(l, p), p, freeList, allocList)
    ensures Holds(m', p + l.chunks[p].size, l.chunks[p + l.chunks[p].size].size)
    ensures ForeignKept(m, m', l, NULL)
  {
    var q := p + l.chunks[p].size;
    AbsorbKeepsShape(l, p);
    SizeStored(m, m', l, p, l.chunks[p].size + l.chunks[q].size);
    AbsorbedLists(m, m', l, p, freeList, allocList);
    ForeignToFree(l, p);
    forall b | b in Absorb(l, p).chunks && b != p ensures ChunkAt(m', Absorb(l, p), b) {
      assert ChunkAt(m, l, b) && ChunkAt(m', l, b);
    }
    assert ChunkAt(m', l, q);
  }

  /** Storing a new size in the header of chunk p touches nothing else. */
  lemma SizeStored(m: Mem, m': Mem, l: Layout, p: Addr, n: nat)
    requires Tiled(l) && p in l.chunks && m' == Store(m, p, n)
    ensures forall b {:trigger ChunkAt(m', l, b)} | b in l.chunks && b != p && ChunkAt(m, l, b) :: ChunkAt(m', l, b)
    ensures forall b {:trigger SameLinks(m, m', b)} | b in l.chunks :: SameLinks(m, m', b)
    ensures ForeignKept(m, m', l, p)
    ensures HeaderAt(m, l, p) ==> Holds(m', p + IS_FREE, if l.chunks[p].free then 1 else 0)
  {
    assert ChunkOk(l, p);
    assert SameOutside(m, m', p, p + WORD) by {
      forall k: Addr | k in m && (k + WORD <= p || p + WORD <= k) ensures k in m' && m'[k] == m[k] {
        assert Apart(k, p);
      }
    }
    InsideKeeps(m, m', l, p, p, p + WORD);
    assert Apart(p + PREV, p) && Apart(p + NEXT, p) && Apart(p + IS_FREE, p);
  }

  lemma AbsorbedLists(m: Mem, m': Mem, l: Layout, p: Addr, freeList: Addr, allocList: Addr)
    requires Listed(l) && FreePair(l, p) && p + l.chunks[p].size in l.free
    requires Linked(m, freeList, Absorb(l, p).free) && Linked(m, allocList, l.live)
    requires forall b {:trigger SameLinks(m, m', b)} | b in l.chunks :: SameLinks(m, m', b)
    ensures Linked(m', freeList, Absorb(l, p).free) && Linked(m', allocList, l.live)
  {
    AbsorbFreeMembers(l, p);
    LinkedFrame(m, m', freeList, Absorb(l, p).free);
    LinkedFrame(m, m', allocList, l.live);
  }

  lemma AbsorbFreeMembers(l: Layout, p: Addr)
    requires Listed(l) && FreePair(l, p) && p + l.chunks[p].size in l.free
    ensures forall x {:trigger x in Absorb(l, p).free} | x in Absorb(l, p).free :: x in l.chunks
  {
    var i := IndexOf(l.free, p + l.chunks[p].size);
    RemoveAtMembers(l.free, i);
    forall x | x in RemoveAt(l.free, i) ensures x in l.chunks {
      assert x in l.free;
    }
  }

  /** No payload lies in a free chunk, so what is foreign to nobody is foreign to it too. */
  lemma ForeignToFree(l: Layout, a: Addr)
    requires a !in l.live || (Listed(l) && a in l.chunks && l.chunks[a].free)
    ensures forall k {:trigger Foreign(l, NULL, k)} | Foreign(l, NULL, k) :: Foreign(l, a, k)
  {
    assert a !in l.live;
  }

  /** What is foreign before a merge is foreign to it throughout. */
  lemma ForeignSameLive(l: Layout, n: Layout, m: Mem, m': Mem)
    requires SameLive(l, n) && ForeignKept(m, m', n, NULL)
    ensures ForeignKept(m, m', l, NULL)
  {
    forall k | k in m && Foreign(l, NULL, k) ensures k in m' && m'[k] == m[k] {
      if a :| a in l.live && a != NULL && InPayload(l, a, k) {
        assert a in n.live && InPayload(n, a, k);
      }
      assert Foreign(n, NULL, k);
    }
  }

  /** A chunk that does not begin the arena has a left neighbour, and its footer leads there. */
  lemma LeftNeighbour(m: Mem, l: Layout, a: Addr) returns (b: Addr)
    requires Tiled(l) && Chunks(m, l) && a in l.chunks && a != l.start
    ensures b in l.chunks && b < a && b + l.chunks[b].size == a
    ensures a > l.start + OVERHEAD && Holds(m, a - FOOTER, b)
  {
    Compare(l, l.start, a);
    ByteInOneChunk(l, a - 1, l.start);
    b :| b in l.chunks && b <= a - 1 < b + l.chunks[b].size;
    Compare(l, b, a);
    assert ChunkAt(m, l, b);
  }

  lemma RunStartStep(l: Layout, a: Addr, b: Addr)
    requires Tiled(l) && a in l.chunks && b in l.chunks && b + l.chunks[b].size == a
    ensures RunStart(l, a) == if l.chunks[b].free then RunStart(l, b) else a
  {
    assert ChunkOk(l, b);
    forall c | c in l.chunks && c + l.chunks[c].size == a ensures c == b {
      Compare(l, b, c);
    }
  }

  lemma RunStartFirst(l: Layout)
    requires Tiled(l)
    ensures RunStart(l, l.start) == l.start
  {
    forall b | b in l.chunks ensures l.start <= b {
      assert ChunkOk(l, b);
    }
  }

  /** merge_free_chunk: find the start of the free run around c, then swallow it chunk by chunk. */
  method MergeFreeChunk(m: Mem, freeList: Addr, start: Addr, poolSize: nat, c: Addr, ghost l: Layout,
    ghost allocList: Addr)
      returns (m': Mem, freeList': Addr)
    requires Shape(l) && Represents(m, l, freeList, allocList)
    requires start == l.start && l.end == start + poolSize
    requires c in l.chunks && l.chunks[c].free
    requires RunStart(l, c) in l.chunks
    ensures Represents(m', AbsorbAll(l, RunStart(l, c)), freeList', allocList)
    ensures ForeignKept(m, m', l, NULL)
  {
    var p0, p1 := c, c;
    assert ChunkAt(m, l, c);
    while m[p0 + IS_FREE] != 0
      invariant p0 in l.chunks && HeaderAt(m, l, p0)
      invariant p1 in l.chunks && l.chunks[p1].free && RunStart(l, p1) == RunStart(l, c)
      invariant p0 == p1 == c || p0 + l.chunks[p0].size == p1
      decreases p0
    {
      if p0 != p1 {
        RunStartStep(l, p1, p0);
      }
      p1 := p0;
      if p0 - FOOTER - HEADER <= start {
        FirstOrFar(l, p0);
        break;
      }
      assert p0 != start;
      ghost var b := LeftNeighbour(m, l, p0);
      p0 := m[p0 - FOOTER];
      assert ChunkAt(m, l, p0);
    }
    if p0 == p1 {
      RunStartFirst(l);
    } else {
      RunStartStep(l, p1, p0);
    }
    assert p1 == RunStart(l, c) && ChunkAt(m, l, p1);
    m', freeList' := MergeFrom(m, freeList, start, poolSize, p1, l, allocList);
  }

  /** Line 125: only the first chunk lies within a header and a footer of the arena's start. */
  lemma FirstOrFar(l: Layout, a: Addr)
    requires Tiled(l) && a in l.chunks && a <= l.start + OVERHEAD
    ensures a == l.start
  {
    Compare(l, l.start, a);
  }

  /** Where the loop of lines 130-134 stands: layout n, still to be merged from p on, in memory m. */
  ghost predicate Midway(m0: Mem, m: Mem, l: Layout, n: Layout, p: Addr, freeList: Addr, allocList: Addr) {
    && Shape(l) && p in l.chunks && Shape(n) && SameLive(l, n)
    && Merging(m, n, p, freeList, allocList) && RightKnown(m, n, p)
    && ForeignKept(m0, m, l, NULL)
    && AbsorbAll(n, p) == AbsorbAll(l, p)
  }

  lemma MergeBegins(m: Mem, l: Layout, p: Addr, freeList: Addr, allocList: Addr)
    requires Shape(l) && Represents(m, l, freeList, allocList)
    requires p in l.chunks && l.chunks[p].free && HeaderAt(m, l, p)
    ensures Midway(m, m, l, l, p, freeList, allocList)
  {
    RightOf(m, l, p);
  }

  /** The loop's guard reads the right neighbour's header, or stops at the arena's end. */
  lemma MergeGuard(m0: Mem, m: Mem, l: Layout, n: Layout, p: Addr, freeList: Addr, allocList: Addr)
    requires Midway(m0, m, l, n, p, freeList, allocList)
    ensures p in n.chunks && OVERHEAD < n.chunks[p].size && Holds(m, p, n.chunks[p].size)
    ensures var q := p + n.chunks[p].size;
      && (q < l.end ==> q + IS_FREE in m)
      && (FreePair(n, p) <==> q < l.end && m[q + IS_FREE] != 0)
  {
  }

  /** Lines 129-136. */
  method MergeFrom(m: Mem, freeList: Addr, start: Addr, poolSize: nat, p1: Addr, ghost l: Layout, ghost allocList: Addr)
      returns (m': Mem, freeList': Addr)
    requires Shape(l) && Represents(m, l, freeList, allocList)
    requires start == l.start && l.end == start + poolSize
    requires p1 in l.chunks && l.chunks[p1].free && HeaderAt(m, l, p1)
    ensures Represents(m', AbsorbAll(l, p1), freeList', allocList)
    ensures ForeignKept(m, m', l, NULL)
  {
    MergeBegins(m, l, p1, freeList, allocList);
    hide Shape, Represents, HeaderAt, AbsorbAll, Midway, ForeignKept, FreePair;
    m', freeList' := m, freeList;
    ghost var n := l;
    MergeGuard(m, m', l, n, p1, freeList', allocList);
    var p0 := p1 + m'[p1];
    while p0 < start + poolSize && m'[p0 + IS_FREE] != 0
      invariant Midway(m, m', l, n, p1, freeList', allocList)
      invariant p1 in n.chunks && OVERHEAD < n.chunks[p1].size && Holds(m', p1, n.chunks[p1].size)
      invariant p0 == p1 + n.chunks[p1].size
      invariant p0 < l.end ==> p0 + IS_FREE in m'
      invariant FreePair(n, p1) <==> p0 < l.end && m'[p0 + IS_FREE] != 0
      decreases |n.chunks|
    {
      m', freeList', n := MergeStep(m, m', freeList', p1, p0, l, n, allocList);
      MergeGuard(m, m', l, n, p1, freeList', allocList);
      p0 := p0 + m'[p0];
    }
    MergeEnds(m, m', l, n, p1, freeList', allocList);
    m' := Store(m', p1 + m'[p1] - FOOTER, p1);
  }

  /** What a merge knows of the chunk right of p: its header, or that p is the last chunk. */
  ghost predicate RightKnown(m: Mem, l: Layout, p: Addr)
    requires p in l.chunks
  {
    var q := p + l.chunks[p].size;
    && OVERHEAD < l.chunks[p].size && q <= l.end
    && (q < l.end ==> q in l.chunks && HeaderAt(m, l, q))
    && (q == l.end ==> q !in l.chunks)
  }

  /** One round of the loop. */
  method MergeStep(
      ghost m0: Mem, m: Mem, freeList: Addr, p1: Addr, p0: Addr, ghost l: Layout, ghost n: Layout,
        ghost allocList: Addr)
      returns (m': Mem, freeList': Addr, ghost n': Layout)
    requires Midway(m0, m, l, n, p1, freeList, allocList)
    requires FreePair(n, p1) && p0 == p1 + n.chunks[p1].size
    ensures Midway(m0, m', l, n', p1, freeList', allocList)
    ensures Holds(m', p0, n.chunks[p0].size)
    ensures p1 in n'.chunks && n'.chunks[p1].size == n.chunks[p1].size + n.chunks[p0].size
    ensures |n'.chunks| < |n.chunks|
  {
    AbsorbKeepsShape(n, p1);
    SameLiveAbsorb(l, n, p1);
    n' := Absorb(n, p1);
    assert AbsorbAll(n', p1) == AbsorbAll(n, p1);
    m', freeList' := AbsorbRight(m, freeList, p1, p0, n, allocList);
    MergeGoesOn(m0, m, m', l, n, p1, freeList', allocList);
  }

  lemma MergeGoesOn(m0: Mem, m: Mem, m': Mem, l: Layout, n: Layout, p: Addr, freeList: Addr, allocList: Addr)
    requires Shape(n) && SameLive(l, n) && FreePair(n, p) && p + n.chunks[p].size in n.free
    requires Shape(Absorb(n, p)) && Merging(m', Absorb(n, p), p, freeList, allocList)
    requires ForeignKept(m0, m, l, NULL) && ForeignKept(m, m', n, NULL)
    ensures RightKnown(m', Absorb(n, p), p) && ForeignKept(m0, m', l, NULL)
  {
    ForeignSameLive(l, n, m, m');
    ForeignKeptTrans(m0, m, m', l, NULL);
    RightOf(m', Absorb(n, p), p);
  }

  lemma MergeEnds(m0: Mem, m: Mem, l: Layout, n: Layout, p: Addr, freeList: Addr, allocList: Addr)
    requires Midway(m0, m, l, n, p, freeList, allocList) && !FreePair(n, p)
    ensures Holds(m, p, n.chunks[p].size) && OVERHEAD < n.chunks[p].size
    ensures var m' := Store(m, p + n.chunks[p].size - FOOTER, p);
      Represents(m', AbsorbAll(l, p), freeList, allocList) && ForeignKept(m0, m', l, NULL)
  {
    var m' := Store(m, p + n.chunks[p].size - FOOTER, p);
    Footed(m, m', n, p, freeList, allocList);
    ForeignSameLive(l, n, m, m');
    ForeignKeptTrans(m0, m, m', l, NULL);
  }

  lemma RightOf(m: Mem, l: Layout, p: Addr)
    requires Tiled(l) && p in l.chunks && ChunksBut(m, l, p)
    ensures RightKnown(m, l, p)
  {
    var q := p + l.chunks[p].size;
    assert ChunkOk(l, p);
    if q < l.end {
      assert ChunkAt(m, l, q);
    } else if q in l.chunks {
      Compare(l, q, q);
    }
  }

  lemma SameLiveAbsorb(l: Layout, n: Layout, p: Addr)
    requires SameLive(l, n) && Shape(n) && FreePair(n, p)
    ensures p + n.chunks[p].size in n.free && SameLive(l, Absorb(n, p))
  {
    var q := p + n.chunks[p].size;
    assert q in n.free && p !in n.live && q !in n.live;
  }

  /** Line 136: writing the merged chunk's footer completes the merge. */
  lemma Footed(m: Mem, m': Mem, l: Layout, p: Addr, freeList: Addr, allocList: Addr)
    requires Shape(l) && Merging(m, l, p, freeList, allocList)
    requires OVERHEAD < l.chunks[p].size && m' == Store(m, p + l.chunks[p].size - FOOTER, p)
    ensures Represents(m', l, freeList, allocList) && ForeignKept(m, m', l, NULL)
  {
    var t := p + l.chunks[p].size - FOOTER;
    assert SameOutside(m, m', t, t + WORD) by {
      forall k: Addr | k in m && (k + WORD <= t || t + WORD <= k) ensures k in m' && m'[k] == m[k] {
        assert Apart(k, t);
      }
    }
    InsideKeeps(m, m', l, p, t, t + WORD);
    assert Apart(p, t) && Apart(p + IS_FREE, t);
    LinkedFrame(m, m', freeList, l.free);
    LinkedFrame(m, m', allocList, l.live);
    forall b | b in l.chunks ensures ChunkAt(m', l, b) {
      assert b != p ==> ChunkAt(m, l, b);
    }
    ForeignToFree(l, p);
  }

  /** A release is the move to the free list, then a merge; both leave the counters what they should be. */
  lemma ReleaseStages(l: Layout, a: Addr)
    requires Inv(l) && a in l.live
    ensures a in l.chunks && Shape(l) && Shape(Freed(l, a)) && Inv(Release(l, a))
    ensures var f := Freed(l, a);
      && f.start == l.start && f.end == l.end && a in f.chunks && f.chunks[a].free
      && RunStart(f, a) in f.chunks && Release(l, a) == AbsorbAll(f, RunStart(f, a))
    ensures var r := Release(l, a);
      && r.start == l.start && r.end == l.end && |r.live| + 1 == |l.live|
      && Total(r.chunks, r.live) == Total(l.chunks, l.live) - l.chunks[a].size
  {
    FreedKeepsShape(l, a);
    RunStartInRun(Freed(l, a), a);
    ReleaseMembers(l, a);
    ReleaseBytes(l, a);
  }

  /** Lines 283-290 without the counters; size is what they are lowered by. */
  method ReleaseChunk(
      m: Mem, freeList: Addr, allocList: Addr, start: Addr, poolSize: nat, a: Addr, ghost l: Layout)
      returns (m': Mem, freeList': Addr, allocList': Addr, size: nat)
    requires Inv(l) && Represents(m, l, freeList, allocList) && a in l.live
    requires start == l.start && l.end == start + poolSize
    ensures Represents(m', Release(l, a), freeList', allocList')
    ensures a in l.chunks && size == l.chunks[a].size
    ensures ForeignKept(m, m', l, a)
  {
    ReleaseStages(l, a);
    hide Inv, Shape, Represents, ForeignKept, Freed, Release, AbsorbAll, RunStart;
    var m1, freeList1;
    m1, freeList1, allocList' := MoveToFree(m, freeList, allocList, a, l);
    size := m1[a];
    m', freeList' := MergeFreeChunk(m1, freeList1, start, poolSize, a, Freed(l, a), allocList');
    ForeignFreed(l, a, m1, m');
    ForeignKeptTrans(m, m1, m', l, a);
  }

  class Arena {
    const start: Addr
    const id: nat
    const mem_pool_size: nat
    var alloc_mem: nat
    var alloc_prog_mem: nat
    var free_list: Addr
    var alloc_list: Addr
    var mem: Mem
    ghost var layout: Layout

    ghost predicate Valid()
      reads this
    {
      && layout.start == start && layout.end == start + mem_pool_size
      && Inv(layout)
      && Represents(mem, layout, free_list, alloc_list)
      && alloc_mem == Total(layout.chunks, layout.live)
      && alloc_prog_mem + OVERHEAD * |layout.live| == alloc_mem
    }

    /** A fresh arena, its memory as the system's malloc left it. */
    constructor (start: Addr, id: nat, size: nat, mem: Mem)
      requires NULL < start && OVERHEAD < size
      ensures Valid() && this.start == start && this.id == id && mem_pool_size == size
      ensures layout == Fresh(start, size)
    {
      this.start, this.id, this.mem_pool_size, this.mem := start, id, size, mem;
      new;
      InitStruct(size);
    }

    /** MP_INIT_MEMORY_STRUCT. */
    method InitStruct(size: nat)
      requires NULL < start && OVERHEAD < size == mem_pool_size
      modifies this
      ensures Valid() && layout == Fresh(start, size)
    {
      alloc_mem := 0;
      alloc_prog_mem := 0;
      free_list := start;
      mem := InitHeader(mem, free_list, size);
      alloc_list := NULL;
      layout := Fresh(start, size);
      FreshSound(start, size);
    }

    /**
     The search of the free list and the cut (lines 194-243), for n bytes with header and footer:
     first fit, or NULL when nothing fits.
     */
    method Allocate(n: nat) returns (p: Addr)
      requires Valid() && OVERHEAD < n
      modifies this
      ensures Valid()
      ensures !HasFit(old(layout), n) ==> p == NULL && unchanged(this)
      ensures HasFit(old(layout), n) ==>
        var i := FirstFit(old(layout), n);
        p == old(layout).free[i] + HEADER && layout == Take(old(layout), i, n)
      ensures ForeignKept(old(mem), mem, old(layout), NULL)
    {
      ghost var l := layout;
      ghost var i: nat := 0;
      var free := free_list;
      HeadNull(mem, free_list, l.free);
      while free != NULL
        invariant i <= |l.free| && free == (if i == |l.free| then NULL else l.free[i])
        invariant free == NULL <==> i == |l.free|
        invariant forall j | 0 <= j < i :: !Fits(l, l.free[j], n)
        invariant unchanged(this)
        decreases |l.free| - i
      {
        assert l.free[i] in l.free && ChunkAt(mem, l, l.free[i]) && LinkAt(mem, l.free, i);
        if mem[free] >= n {
          FirstFitIs(l, n, i);
          p := TakeAt(free, n, i);
          return;
        }
        free := mem[free + NEXT];
        PrevNull(mem, free_list, l.free, i);
        i := i + 1;
      }
      NoFit(l, n);
      p := NULL;
    }

    method TakeAt(a: Addr, n: nat, ghost i: nat) returns (p: Addr)
      requires Valid() && OVERHEAD < n && i < |layout.free| && layout.free[i] == a && Fits(layout, a, n)
      modifies this
      ensures Valid()
      ensures p == a + HEADER && layout == Take(old(layout), i, n)
      ensures ForeignKept(old(mem), mem, old(layout), NULL)
    {
      ghost var l := layout;
      TakeSound(l, i, n);
      TakeTotal(l, i, n);
      mem, free_list, alloc_list := TakeChunk(mem, free_list, alloc_list, a, n, l, i);
      layout := Take(l, i, n);
      alloc_mem := alloc_mem + mem[a];
      alloc_prog_mem := alloc_prog_mem + (mem[a] - HEADER - FOOTER);
      p := a + HEADER;
      ForeignToAll(l, a);
    }

    /** MemoryPoolFree for a block of this arena; poolSize is the pool's common arena size. */
    method Free(p: Addr, poolSize: nat)
      requires Valid() && HEADER <= p && p - HEADER in layout.live && poolSize == mem_pool_size
      modifies this
      ensures Valid() && layout == Release(old(layout), p - HEADER)
      ensures ForeignKept(old(mem), mem, old(layout), p - HEADER)
    {
      ghost var l := layout;
      var ck := p - HEADER;
      ReleaseStages(l, ck);
      LiveBytes(l);
      hide Inv, Represents, ForeignKept, Release;
      var size;
      mem, free_list, alloc_list, size := ReleaseChunk(mem, free_list, alloc_list, start, poolSize, ck, l);
      alloc_mem := alloc_mem - size;
      alloc_prog_mem := alloc_prog_mem - (size - HEADER - FOOTER);
      layout := Release(l, ck);
    }

    /** The owner of block p writes words into it, from an offset on. */
    method StoreWords(p: Addr, offset: nat, words: seq<nat>)
      requires Valid() && HEADER <= p && p - HEADER in layout.live && p - HEADER in layout.chunks
      requires OVERHEAD + offset + WORD * |words| <= layout.chunks[p - HEADER].size
      modifies this`mem
      ensures Valid() && mem == StoreAll(old(mem), p + offset, words)
      ensures ForeignKept(old(mem), mem, layout, p - HEADER)
    {
      hide Inv, Represents, ForeignKept, StoreAll;
      StoreAllKeepsHeap(mem, layout, free_list, alloc_list, p - HEADER, offset, words);
      mem := StoreEach(mem, p + offset, words);
    }

    /** The arena's part of MemoryPoolClear. */
    method Clear()
      requires Valid()
      modifies this
      ensures Valid() && layout == Fresh(start, mem_pool_size)
    {
      assert ChunkOk(layout, layout.start);
      InitStruct(mem_pool_size);
    }
  }

  lemma LiveBytes(l: Layout)
    requires Shape(l)
    ensures OVERHEAD * |l.live| <= Total(l.chunks, l.live)
    ensures forall a {:trigger a in l.live} | a in l.live ::
      OVERHEAD < l.chunks[a].size && OVERHEAD * (|l.live| - 1) <= Total(l.chunks, l.live) - l.chunks[a].size
  {
    forall a | a in l.chunks ensures OVERHEAD < l.chunks[a].size {
      assert ChunkOk(l, a);
    }
    TotalMany(l.chunks, l.live);
    forall a | a in l.live ensures OVERHEAD * (|l.live| - 1) <= Total(l.chunks, l.live) - l.chunks[a].size {
      var i := IndexOf(l.live, a);
      RemoveAtMembers(l.live, i);
      TotalRemoveAt(l.chunks, l.live, i);
      TotalMany(l.chunks, RemoveAt(l.live, i));
    }
  }

  lemma {:induction false} TotalMany(chunks: map<Addr, Chunk>, xs: seq<Addr>)
    requires forall a | a in xs :: a in chunks && OVERHEAD < chunks[a].size
    ensures OVERHEAD * |xs| <= Total(chunks, xs)
  {
    if xs != [] {
      assert xs[0] in xs;
      TotalMany(chunks, xs[1..]);
    }
  }

  lemma ForeignFreed(l: Layout, a: Addr, m: Mem, m': Mem)
    requires Shape(l) && a in l.live && ForeignKept(m, m', Freed(l, a), NULL)
    ensures ForeignKept(m, m', l, a)
  {
    var f := Freed(l, a);
    RemoveAtMembers(l.live, IndexOf(l.live, a));
    forall k | k in m && Foreign(l, a, k) ensures k in m' && m'[k] == m[k] {
      if b :| b in l.live && b != a && InPayload(l, b, k) {
        assert b in f.live && InPayload(f, b, k) && ChunkOk(l, b);
      }
      assert Foreign(f, NULL, k);
    }
  }

  /** What the owner of block a writes into its payload leaves the whole heap structure in place. */
  lemma PayloadStoreKeepsHeap(m: Mem, l: Layout, freeList: Addr, allocList: Addr, a: Addr, k: Addr, v: nat)
    requires Inv(l) && Represents(m, l, freeList, allocList) && a in l.live && InPayload(l, a, k)
    ensures Represents(Store(m, k, v), l, freeList, allocList)
    ensures ForeignKept(m, Store(m, k, v), l, a)
  {
    var m' := Store(m, k, v);
    assert SameOutside(m, m', k, k + WORD) by {
      forall j: Addr | j in m && (j + WORD <= k || k + WORD <= j) ensures j in m' && m'[j] == m[j] {
        assert Apart(j, k);
      }
    }
    InsideKeeps(m, m', l, a, k, k + WORD);
    LinkedFrame(m, m', freeList, l.free);
    LinkedFrame(m, m', allocList, l.live);
    assert ChunkAt(m, l, a) && Apart(a, k) && Apart(a + IS_FREE, k) && Apart(a + l.chunks[a].size - FOOTER, k);
    forall b | b in l.chunks ensures ChunkAt(m', l, b) {
      assert ChunkAt(m, l, b);
    }
  }

  /** The same for words stored one after the other. */
  lemma {:induction false} StoreAllKeepsHeap(
      m: Mem, l: Layout, freeList: Addr, allocList: Addr, a: Addr, offset: nat, words: seq<nat>)
    requires Inv(l) && Represents(m, l, freeList, allocList) && a in l.live && a in l.chunks
    requires OVERHEAD + offset + WORD * |words| <= l.chunks[a].size
    ensures Represents(StoreAll(m, a + HEADER + offset, words), l, freeList, allocList)
    ensures ForeignKept(m, StoreAll(m, a + HEADER + offset, words), l, a)
    decreases |words|
  {
    hide Inv, Represents;
    if words != [] {
      hide ForeignKept;
      var n, at := |words| - 1, a + HEADER + offset;
      StoreAllKeepsHeap(m, l, freeList, allocList, a, offset, words[..n]);
      var m1 := StoreAll(m, at, words[..n]);
      PayloadStoreKeepsHeap(m1, l, freeList, allocList, a, at + WORD * n, words[n]);
      ForeignKeptTrans(m, m1, StoreAll(m, at, words), l, a);
    }
  }

  /** Payloads of two allocated blocks share no byte. */
  lemma PayloadsDisjoint(l: Layout, a: Addr, b: Addr)
    requires Inv(l) && a in l.live && b in l.live && a != b
    ensures a + l.chunks[a].size - FOOTER <= b + HEADER || b + l.chunks[b].size - FOOTER <= a + HEADER
    ensures l.start <= a && a + l.chunks[a].size <= l.end
  {
    Compare(l, a, b);
  }

  lemma ForeignToAll(l: Layout, a: Addr)
    requires a !in l.live
    ensures forall k {:trigger Foreign(l, NULL, k)} | Foreign(l, NULL, k) :: Foreign(l, a, k)
  {
  }
}
