/**
 The layout of one arena as values: how it is cut into chunks, and the order of its free and
 alloc lists.  Take and Release say what one allocation and one release do to it; ReleaseAll
 releases blocks one after the other.
 */
module Layouts {
  import opened Sequences
  import opened Words

  const FOOTER: nat := 8
  const OVERHEAD: nat := HEADER + FOOTER

  datatype Chunk = Chunk(size: nat, free: bool)

  /** chunks is keyed by header address; free and live are the two lists, front first. */
  datatype Layout = Layout(start: Addr, end: Addr, chunks: map<Addr, Chunk>, free: seq<Addr>, live: seq<Addr>)

  /** MP_INIT_MEMORY_STRUCT: one free chunk over the whole arena. */
  function Fresh(start: Addr, size: nat): Layout {
    Layout(start, start + size, map[start := Chunk(size, true)], [start], [])
  }

  // ----- what a sound layout is

  ghost predicate ChunkOk(l: Layout, a: Addr)
    requires a in l.chunks
  {
    && l.start <= a
    && OVERHEAD < l.chunks[a].size
    && a + l.chunks[a].size <= l.end
    && (a + l.chunks[a].size == l.end || a + l.chunks[a].size in l.chunks)
  }

  /** The chunks tile [start, end) exactly: no gap and no overlap. */
  ghost predicate Tiled(l: Layout) {
    && NULL < l.start
    && l.start in l.chunks
    && (forall a {:trigger ChunkOk(l, a)} | a in l.chunks :: ChunkOk(l, a))
    && (forall a, b {:trigger Before(l, a, b)} | a in l.chunks && b in l.chunks && a < b :: Before(l, a, b))
  }

  ghost predicate Before(l: Layout, a: Addr, b: Addr)
    requires a in l.chunks
  {
    a + l.chunks[a].size <= b
  }

  lemma Compare(l: Layout, a: Addr, b: Addr)
    requires Tiled(l) && a in l.chunks && b in l.chunks
    ensures ChunkOk(l, a) && ChunkOk(l, b)
    ensures a < b ==> a + l.chunks[a].size <= b
    ensures b < a ==> b + l.chunks[b].size <= a
  {
    if a < b {
      assert Before(l, a, b);
    } else if b < a {
      assert Before(l, b, a);
    }
    assert ChunkOk(l, a) && ChunkOk(l, b);
  }

  /** The lists hold exactly the free and exactly the allocated chunks, each once. */
  ghost predicate Listed(l: Layout) {
    && Distinct(l.free) && Distinct(l.live)
    && (forall a {:trigger a in l.free} :: a in l.free <==> a in l.chunks && l.chunks[a].free)
    && (forall a {:trigger a in l.live} :: a in l.live <==> a in l.chunks && !l.chunks[a].free)
  }

  /** a and its right neighbour are both free. */
  ghost predicate FreePair(l: Layout, a: Addr) {
    && a in l.chunks && l.chunks[a].free
    && a + l.chunks[a].size in l.chunks && l.chunks[a + l.chunks[a].size].free
  }

  ghost predicate Coalesced(l: Layout) {
    forall a {:trigger FreePair(l, a)} :: !FreePair(l, a)
  }

  function Total(chunks: map<Addr, Chunk>, xs: seq<Addr>): nat {
    if xs == [] then 0 else (if xs[0] in chunks then chunks[xs[0]].size else 0) + Total(chunks, xs[1..])
  }

  /** What holds at every moment, also half-way through a merge. */
  ghost predicate Shape(l: Layout) {
    && Tiled(l) && Listed(l)
    && Total(l.chunks, l.free) + Total(l.chunks, l.live) == l.end - l.start
  }

  ghost predicate Inv(l: Layout) {
    Shape(l) && Coalesced(l)
  }

  // ----- allocation

  predicate Fits(l: Layout, a: Addr, n: nat) {
    a in l.chunks && l.chunks[a].size >= n
  }

  /** The position in the free list of the first chunk that fits, or the list's length. */
  function FirstFit(l: Layout, n: nat, from: nat := 0): (i: nat)
    requires from <= |l.free|
    ensures from <= i <= |l.free|
    ensures forall j | from <= j < i :: !Fits(l, l.free[j], n)
    ensures i < |l.free| ==> Fits(l, l.free[i], n)
    decreases |l.free| - from
  {
    if from == |l.free| || Fits(l, l.free[from], n) then from else FirstFit(l, n, from + 1)
  }

  lemma {:induction false} FirstFitIs(l: Layout, n: nat, i: nat, from: nat := 0)
    requires from <= i < |l.free| && Fits(l, l.free[i], n)
    requires forall j | from <= j < i :: !Fits(l, l.free[j], n)
    ensures FirstFit(l, n, from) == i
    decreases i - from
  {
    if from < i {
      FirstFitIs(l, n, i, from + 1);
    }
  }

  lemma NoFit(l: Layout, n: nat)
    requires forall j | 0 <= j < |l.free| :: !Fits(l, l.free[j], n)
    ensures !HasFit(l, n)
  {
  }

  predicate HasFit(l: Layout, n: nat) {
    FirstFit(l, n) < |l.free|
  }

  predicate Splits(l: Layout, a: Addr, n: nat)
    requires Fits(l, a, n)
  {
    l.chunks[a].size - n > OVERHEAD
  }

  /** Allocate n bytes, header and footer included, from the i-th chunk of the free list. */
  function Take(l: Layout, i: nat, n: nat): Layout
    requires i < |l.free| && Fits(l, l.free[i], n)
  {
    var a := l.free[i];
    if Splits(l, a, n) then
      l.(chunks := l.chunks[a := Chunk(n, false)][a + n := Chunk(l.chunks[a].size - n, true)],
         free := l.free[i := a + n],
         live := [a] + l.live)
    else
      l.(chunks := l.chunks[a := Chunk(l.chunks[a].size, false)],
         free := RemoveAt(l.free, i),
         live := [a] + l.live)
  }

  // ----- release

  function IndexOf(xs: seq<Addr>, x: Addr): (i: nat)
    requires x in xs
    ensures i < |xs| && xs[i] == x
  {
    if xs[0] == x then 0 else 1 + IndexOf(xs[1..], x)
  }

  /** Before merging: the chunk moves to the front of the free list. */
  function Freed(l: Layout, a: Addr): Layout
    requires a in l.chunks && a in l.live
  {
    l.(chunks := l.chunks[a := Chunk(l.chunks[a].size, true)],
       free := [a] + l.free,
       live := RemoveAt(l.live, IndexOf(l.live, a)))
  }

  /** The free chunk a takes over its free right neighbour. */
  function Absorb(l: Layout, a: Addr): Layout
    requires a in l.chunks && a + l.chunks[a].size in l.chunks && a + l.chunks[a].size in l.free
  {
    var b := a + l.chunks[a].size;
    l.(chunks := (l.chunks - {b})[a := Chunk(l.chunks[a].size + l.chunks[b].size, true)],
       free := RemoveAt(l.free, IndexOf(l.free, b)))
  }

  /** Where the run of free chunks that ends with a begins. */
  ghost function RunStart(l: Layout, a: Addr): Addr
    decreases a
  {
    if exists b :: b in l.chunks && l.chunks[b].free && b < a && b + l.chunks[b].size == a then
      var b :| b in l.chunks && l.chunks[b].free && b < a && b + l.chunks[b].size == a;
      RunStart(l, b)
    else
      a
  }

  /** Absorb right neighbours for as long as they are free. */
  ghost function AbsorbAll(l: Layout, a: Addr): Layout
    requires Shape(l) && a in l.chunks
    decreases |l.chunks|
  {
    if FreePair(l, a) then
      AbsorbKeepsShape(l, a);
      AbsorbAll(Absorb(l, a), a)
    else
      l
  }

  /** Release the allocated chunk a. */
  ghost function Release(l: Layout, a: Addr): Layout
    requires Shape(l) && a in l.live
  {
    FreedKeepsShape(l, a);
    RunStartInRun(Freed(l, a), a);
    AbsorbAll(Freed(l, a), RunStart(Freed(l, a), a))
  }

  // ----- sequences and sums

  lemma RemoveAtMembers(xs: seq<Addr>, i: nat)
    requires Distinct(xs) && i < |xs|
    ensures Distinct(RemoveAt(xs, i))
    ensures forall x {:trigger x in RemoveAt(xs, i)} :: x in RemoveAt(xs, i) <==> x in xs && x != xs[i]
  {
    var ys := RemoveAt(xs, i);
    assert forall j | 0 <= j < |ys| :: ys[j] == xs[if j < i then j else j + 1];
    forall x | x in xs && x != xs[i]
      ensures x in ys
    {
      var j :| 0 <= j < |xs| && xs[j] == x;
      assert ys[if j < i then j else j - 1] == x;
    }
  }

  lemma {:induction false} TotalRemoveAt(chunks: map<Addr, Chunk>, xs: seq<Addr>, i: nat)
    requires i < |xs| && xs[i] in chunks
    ensures Total(chunks, RemoveAt(xs, i)) + chunks[xs[i]].size == Total(chunks, xs)
  {
    if i == 0 {
      assert RemoveAt(xs, 0) == xs[1..];
    } else {
      TotalRemoveAt(chunks, xs[1..], i - 1);
      assert RemoveAt(xs, i) == [xs[0]] + RemoveAt(xs[1..], i - 1);
    }
  }

  /** A sum only depends on the sizes of the chunks it counts. */
  lemma {:induction false} TotalSame(c: map<Addr, Chunk>, d: map<Addr, Chunk>, xs: seq<Addr>)
    requires forall x | x in xs :: x in c && x in d && c[x].size == d[x].size
    ensures Total(c, xs) == Total(d, xs)
  {
    if xs != [] {
      assert xs[0] in xs;
      TotalSame(c, d, xs[1..]);
    }
  }

  lemma {:induction false} TotalAtLeast(chunks: map<Addr, Chunk>, xs: seq<Addr>, x: Addr)
    requires x in xs && x in chunks
    ensures chunks[x].size <= Total(chunks, xs)
  {
    TotalRemoveAt(chunks, xs, IndexOf(xs, x));
  }

  // ----- releases keep layouts sound

  lemma FreedKeepsShape(l: Layout, a: Addr)
    requires Shape(l) && a in l.live
    ensures Shape(Freed(l, a))
  {
    FreedTiled(l, a);
    FreedListed(l, a);
    FreedTotal(l, a);
  }

  lemma FreedTiled(l: Layout, a: Addr)
    requires Tiled(l) && a in l.chunks && a in l.live
    ensures Tiled(Freed(l, a))
  {
    var f := Freed(l, a);
    forall b | b in f.chunks ensures ChunkOk(f, b) {
      assert ChunkOk(l, b);
    }
    forall b, c | b in f.chunks && c in f.chunks && b < c ensures Before(f, b, c) {
      assert Before(l, b, c);
    }
  }

  lemma FreedListed(l: Layout, a: Addr)
    requires Listed(l) && a in l.live
    ensures Listed(Freed(l, a))
  {
    var f := Freed(l, a);
    RemoveAtMembers(l.live, IndexOf(l.live, a));
    assert a !in l.free;
    forall b ensures b in f.free <==> b in f.chunks && f.chunks[b].free {
      assert b in f.free <==> b == a || b in l.free;
    }
    assert Distinct(f.free);
  }

  lemma FreedTotal(l: Layout, a: Addr)
    requires Listed(l) && a in l.live
    ensures Total(Freed(l, a).chunks, Freed(l, a).free) == Total(l.chunks, l.free) + l.chunks[a].size
    ensures Total(Freed(l, a).chunks, Freed(l, a).live) == Total(l.chunks, l.live) - l.chunks[a].size
  {
    var f, i := Freed(l, a), IndexOf(l.live, a);
    RemoveAtMembers(l.live, i);
    TotalRemoveAt(l.chunks, l.live, i);
    TotalSame(l.chunks, f.chunks, l.free);
    TotalSame(l.chunks, f.chunks, f.live);
    assert f.free[1..] == l.free;
  }

  lemma AbsorbKeepsShape(l: Layout, a: Addr)
    requires Shape(l) && FreePair(l, a)
    ensures a in Absorb(l, a).chunks && Absorb(l, a).chunks[a].free
    ensures |Absorb(l, a).chunks| < |l.chunks|
    ensures Shape(Absorb(l, a))
  {
    var m, b := Absorb(l, a), a + l.chunks[a].size;
    assert ChunkOk(l, a) && ChunkOk(l, b);
    assert b in l.free && b !in l.live;
    RemoveAtMembers(l.free, IndexOf(l.free, b));
    assert m.chunks.Keys == l.chunks.Keys - {b};
    AbsorbTiled(l, a);
    AbsorbTotal(l, a);
    forall x ensures x in m.free <==> x in m.chunks && m.chunks[x].free {
      assert x in m.free <==> x in l.free && x != b;
    }
  }

  lemma AbsorbTiled(l: Layout, a: Addr)
    requires Tiled(l) && Listed(l) && FreePair(l, a)
    ensures a + l.chunks[a].size in l.free && Tiled(Absorb(l, a))
  {
    var b := a + l.chunks[a].size;
    assert b in l.free;
    var m := Absorb(l, a);
    Compare(l, l.start, b);
    Compare(l, a, b);
    forall c | c in m.chunks ensures ChunkOk(m, c) {
      AbsorbChunkOk(l, a, c);
    }
    forall c, d | c in m.chunks && d in m.chunks && c < d ensures Before(m, c, d) {
      Compare(l, c, d);
      Compare(l, b, d);
    }
  }

  lemma AbsorbChunkOk(l: Layout, a: Addr, c: Addr)
    requires Tiled(l) && FreePair(l, a) && a + l.chunks[a].size in l.free
    requires c in l.chunks && c != a + l.chunks[a].size
    ensures c in Absorb(l, a).chunks && ChunkOk(Absorb(l, a), c)
  {
    var b := a + l.chunks[a].size;
    Compare(l, a, b);
    Compare(l, c, b);
    Compare(l, c, a);
  }

  lemma AbsorbTotal(l: Layout, a: Addr)
    requires Shape(l) && FreePair(l, a)
    ensures a + l.chunks[a].size in l.free
    ensures Total(Absorb(l, a).chunks, Absorb(l, a).free) == Total(l.chunks, l.free)
    ensures Total(Absorb(l, a).chunks, l.live) == Total(l.chunks, l.live)
  {
    var b := a + l.chunks[a].size;
    assert b in l.free;
    assert b !in l.live && a !in l.live;
    TotalSame(l.chunks, Absorb(l, a).chunks, l.live);
    AbsorbFreeTotal(l, a, b);
  }

  lemma AbsorbFreeTotal(l: Layout, a: Addr, b: Addr)
    requires Tiled(l) && Listed(l) && FreePair(l, a) && b == a + l.chunks[a].size && b in l.free
    ensures Total(Absorb(l, a).chunks, Absorb(l, a).free) == Total(l.chunks, l.free)
  {
    Compare(l, a, b);
    var m, i := Absorb(l, a), IndexOf(l.free, b);
    RemoveAtMembers(l.free, i);
    TotalRemoveAt(l.chunks, l.free, i);
    assert a in l.free && a in m.free;
    assert forall x | x in m.free :: x in l.chunks && x != b;
    hide Tiled, Listed, Distinct, FreePair;
    TotalGrow(l.chunks, m.chunks, m.free, a, l.chunks[b].size);
  }

  /** A sum grows with one of the chunks it counts. */
  lemma TotalGrow(c: map<Addr, Chunk>, d: map<Addr, Chunk>, xs: seq<Addr>, a: Addr, n: nat)
    requires Distinct(xs) && a in xs && a in c && a in d && d[a].size == c[a].size + n
    requires forall x | x in xs && x != a :: x in c && x in d && c[x].size == d[x].size
    ensures Total(d, xs) == Total(c, xs) + n
  {
    var j := IndexOf(xs, a);
    RemoveAtMembers(xs, j);
    TotalRemoveAt(c, xs, j);
    TotalRemoveAt(d, xs, j);
    TotalSame(c, d, RemoveAt(xs, j));
  }

  /** RunStart is a free chunk, at or left of a, and no free chunk ends where it begins. */
  lemma {:induction false} RunStartInRun(l: Layout, a: Addr)
    requires a in l.chunks && l.chunks[a].free
    ensures RunStart(l, a) in l.chunks && l.chunks[RunStart(l, a)].free && RunStart(l, a) <= a
    ensures var p := RunStart(l, a);
      !exists b :: b in l.chunks && l.chunks[b].free && b < p && b + l.chunks[b].size == p
    decreases a
  {
    if exists b :: b in l.chunks && l.chunks[b].free && b < a && b + l.chunks[b].size == a {
      var b :| b in l.chunks && l.chunks[b].free && b < a && b + l.chunks[b].size == a
        && RunStart(l, a) == RunStart(l, b);
      RunStartInRun(l, b);
    }
  }

  /** Only the run of free chunks that begins at p is still to be merged. */
  ghost predicate OnlyRun(l: Layout, p: Addr)
    requires p in l.chunks
  {
    && l.chunks[p].free
    && (forall x {:trigger FreePair(l, x)} :: FreePair(l, x) ==> x == p || x == p + l.chunks[p].size)
    && (forall x {:trigger ChunkOk(l, x)} | x in l.chunks && l.chunks[x].free :: x + l.chunks[x].size != p)
  }

  lemma AbsorbKeepsOnlyRun(l: Layout, p: Addr)
    requires Shape(l) && FreePair(l, p) && OnlyRun(l, p)
    ensures p + l.chunks[p].size in l.free && OnlyRun(Absorb(l, p), p)
  {
    AbsorbKeepsShape(l, p);
    AbsorbTiled(l, p);
    var m, b := Absorb(l, p), p + l.chunks[p].size;
    assert ChunkOk(l, p) && ChunkOk(l, b);
    forall x: Addr ensures FreePair(m, x) ==> x == p {
      assert x in l.chunks ==> ChunkOk(l, x);
      assert FreePair(l, x) ==> x == p || x == b;
    }
    forall x | x in m.chunks && m.chunks[x].free ensures x + m.chunks[x].size != p {
      assert ChunkOk(l, x);
    }
  }

  /** What a merge leaves alone. */
  ghost predicate SameLive(l: Layout, m: Layout) {
    && m.start == l.start && m.end == l.end && m.live == l.live
    && (forall x {:trigger x in l.live} | x in l.live :: x in l.chunks && x in m.chunks && m.chunks[x] == l.chunks[x])
  }

  lemma {:induction false} AbsorbAllSound(l: Layout, p: Addr)
    requires Shape(l) && p in l.chunks && OnlyRun(l, p)
    ensures Inv(AbsorbAll(l, p)) && SameLive(l, AbsorbAll(l, p))
    decreases |l.chunks|
  {
    if FreePair(l, p) {
      AbsorbKeepsShape(l, p);
      AbsorbKeepsOnlyRun(l, p);
      AbsorbAllSound(Absorb(l, p), p);
      var m := Absorb(l, p);
      assert p !in l.live && p + l.chunks[p].size !in l.live;
      assert SameLive(l, m);
    }
  }

  /**
   A release keeps the layout sound, and so merges completely; it takes exactly a off the
   alloc list and does not touch any other allocated chunk.
   */
  lemma ReleaseSound(l: Layout, a: Addr)
    requires Inv(l) && a in l.live
    ensures Inv(Release(l, a))
    ensures Release(l, a).start == l.start && Release(l, a).end == l.end
    ensures Release(l, a).live == RemoveAt(l.live, IndexOf(l.live, a))
    ensures forall x {:trigger x in l.live} | x in l.live && x != a ::
      x in l.chunks && x in Release(l, a).chunks && Release(l, a).chunks[x] == l.chunks[x]
  {
    var f := Freed(l, a);
    FreedKeepsShape(l, a);
    RunStartInRun(f, a);
    var p := RunStart(f, a);
    RemoveAtMembers(l.live, IndexOf(l.live, a));
    FreedOnlyRun(l, a);
    AbsorbAllSound(f, p);
    forall x | x in l.live && x != a
      ensures x in l.chunks && x in Release(l, a).chunks && Release(l, a).chunks[x] == l.chunks[x]
    {
      assert x in f.live;
    }
  }

  /** A release takes exactly its own chunk off what the alloc list adds up to. */
  lemma ReleaseBytes(l: Layout, a: Addr)
    requires Inv(l) && a in l.live
    ensures Total(Release(l, a).chunks, Release(l, a).live) == Total(l.chunks, l.live) - l.chunks[a].size
  {
    var r, i := Release(l, a), IndexOf(l.live, a);
    ReleaseSound(l, a);
    RemoveAtMembers(l.live, i);
    TotalRemoveAt(l.chunks, l.live, i);
    forall x | x in r.live ensures x in l.chunks && x in r.chunks && r.chunks[x].size == l.chunks[x].size {
      assert x in RemoveAt(l.live, i);
    }
    TotalSame(l.chunks, r.chunks, r.live);
  }

  lemma FreedOnlyRun(l: Layout, a: Addr)
    requires Inv(l) && a in l.live
    ensures RunStart(Freed(l, a), a) in Freed(l, a).chunks
    ensures OnlyRun(Freed(l, a), RunStart(Freed(l, a), a))
  {
    var f := Freed(l, a);
    FreedKeepsShape(l, a);
    RunStartInRun(f, a);
    var p := RunStart(f, a);
    assert ChunkOk(f, p);
    if p != a {
      RunStartIsLeft(l, a);
    }
    forall x: Addr | FreePair(f, x) ensures x == p || x == p + f.chunks[p].size {
      assert !FreePair(l, x) && ChunkOk(f, x);
      Compare(f, p, x);
    }
    forall x | x in f.chunks && f.chunks[x].free ensures x + f.chunks[x].size != p {
      assert ChunkOk(f, x);
    }
  }

  /** In a coalesced layout the run that ends with a freed chunk has at most one chunk before it. */
  lemma RunStartIsLeft(l: Layout, a: Addr)
    requires Inv(l) && a in l.live && RunStart(Freed(l, a), a) != a
    ensures var f, p := Freed(l, a), RunStart(Freed(l, a), a);
      p in f.chunks && p + f.chunks[p].size == a
  {
    var f := Freed(l, a);
    FreedKeepsShape(l, a);
    assert exists b :: b in f.chunks && f.chunks[b].free && b < a && b + f.chunks[b].size == a;
    var b :| b in f.chunks && f.chunks[b].free && b < a && b + f.chunks[b].size == a
      && RunStart(f, a) == RunStart(f, b);
    forall c | c in f.chunks && f.chunks[c].free && c < b ensures c + f.chunks[c].size != b {
      assert !FreePair(l, c);
    }
    assert RunStart(f, b) == b;
  }

  lemma ReleaseMembers(l: Layout, a: Addr)
    requires Inv(l) && a in l.live
    ensures Inv(Release(l, a)) && Release(l, a).start == l.start && Release(l, a).end == l.end
    ensures |Release(l, a).live| + 1 == |l.live|
    ensures forall x {:trigger x in Release(l, a).live} :: x in Release(l, a).live <==> x in l.live && x != a
    ensures forall x {:trigger x in Release(l, a).live} | x in Release(l, a).live ::
      x in l.chunks && x in Release(l, a).chunks && Release(l, a).chunks[x] == l.chunks[x]
  {
    ReleaseSound(l, a);
    RemoveAtMembers(l.live, IndexOf(l.live, a));
  }

  // ----- the layout after a release, at once

  predicate IsFree(l: Layout, a: Addr) {
    a in l.chunks && l.chunks[a].free
  }

  /** xs with x left out, the others in order. */
  function Omit(xs: seq<Addr>, x: Addr): seq<Addr> {
    if x in xs then RemoveAt(xs, IndexOf(xs, x)) else xs
  }

  lemma OmitFirst(a: Addr, xs: seq<Addr>)
    ensures Omit([a] + xs, a) == xs
  {
    assert ([a] + xs)[0] == a && RemoveAt([a] + xs, 0) == xs;
  }

  lemma OmitBehind(a: Addr, xs: seq<Addr>, x: Addr)
    requires x != a
    ensures Omit([a] + xs, x) == [a] + Omit(xs, x)
  {
    hide RemoveAt;
    var ys := [a] + xs;
    assert ys[1..] == xs;
    if x in xs {
      assert IndexOf(ys, x) == IndexOf(xs, x) + 1;
      RemoveBehind(a, xs, IndexOf(xs, x));
    }
  }

  lemma RemoveBehind(a: Addr, xs: seq<Addr>, i: nat)
    requires i < |xs|
    ensures RemoveAt([a] + xs, i + 1) == [a] + RemoveAt(xs, i)
  {
  }

  lemma AbsorbAllStops(l: Layout, p: Addr)
    requires Shape(l) && p in l.chunks && !FreePair(l, p)
    ensures AbsorbAll(l, p) == l
  {
  }

  /** The first round of the merge from p, and what is left of it. */
  lemma AbsorbRound(l: Layout, p: Addr)
    requires Shape(l) && FreePair(l, p)
    ensures var b := p + l.chunks[p].size;
      b in l.chunks && b in l.free && p in Absorb(l, p).chunks && Shape(Absorb(l, p))
      && Absorb(l, p).chunks == (l.chunks - {b})[p := Chunk(l.chunks[p].size + l.chunks[b].size, true)]
      && Absorb(l, p).free == Omit(l.free, b) && Absorb(l, p).live == l.live
      && AbsorbAll(l, p) == AbsorbAll(Absorb(l, p), p)
  {
    AbsorbKeepsShape(l, p);
  }

  /** The merge from p ends after one round where what it takes over has no free neighbour. */
  lemma AbsorbLast(l: Layout, p: Addr)
    requires Shape(l) && p in l.chunks && l.chunks[p].free
    requires FreePair(l, p) ==> !FreePair(l, p + l.chunks[p].size)
    ensures var r, b := AbsorbAll(l, p), p + l.chunks[p].size;
      && r.chunks == (if IsFree(l, b) then (l.chunks - {b})[p := Chunk(l.chunks[p].size + l.chunks[b].size, true)]
                      else l.chunks)
      && r.free == Omit(l.free, b) && r.live == l.live
  {
    if FreePair(l, p) {
      AbsorbRound(l, p);
      assert ChunkOk(l, p) && ChunkOk(l, p + l.chunks[p].size);
      AbsorbAllStops(Absorb(l, p), p);
    } else {
      AbsorbAllStops(l, p);
    }
  }

  /** The right neighbour of a chunk about to be freed ends any merge. */
  lemma RightEnds(l: Layout, a: Addr)
    requires Inv(l) && a in l.live
    ensures a in l.chunks && l.chunks[a].size > 0
    ensures var b := a + l.chunks[a].size; IsFree(l, b) ==> l.chunks[b].size > 0 && !IsFree(l, b + l.chunks[b].size)
  {
    var b := a + l.chunks[a].size;
    assert ChunkOk(l, a) && !FreePair(l, b);
    assert IsFree(l, b) ==> ChunkOk(l, b);
  }

  /** r is l with the chunks from p to a joined, and the right neighbour of a if that is free. */
  ghost predicate Joined(l: Layout, a: Addr, p: Addr, r: Layout)
    requires a in l.chunks && p <= a
  {
    var b := a + l.chunks[a].size;
    var size := b - p + (if IsFree(l, b) then l.chunks[b].size else 0);
    && r.chunks == (l.chunks - {a} - (if IsFree(l, b) then {b} else {}))[p := Chunk(size, true)]
    && r.free == (if p == a then [a] else []) + Omit(l.free, b)
    && r.live == Omit(l.live, a)
  }

  lemma ReleaseAlone(l: Layout, a: Addr)
    requires Inv(l) && a in l.live && Shape(Freed(l, a)) && RunStart(Freed(l, a), a) == a
    ensures a in l.chunks && Joined(l, a, a, Release(l, a))
  {
    hide Inv, Shape, Omit, AbsorbAll, RunStart;
    RightEnds(l, a);
    var f, b := Freed(l, a), a + l.chunks[a].size;
    AbsorbLast(f, a);
    OmitBehind(a, l.free, b);
    assert Omit(l.live, a) == f.live by { OmitIs(l.live, a); }
  }

  lemma OmitIs(xs: seq<Addr>, x: Addr)
    requires x in xs
    ensures Omit(xs, x) == RemoveAt(xs, IndexOf(xs, x))
  {
  }

  lemma TakenOver(chunks: map<Addr, Chunk>, a: Addr, freed: Chunk, p: Addr, once: Chunk, b: Addr, twice: Chunk)
    requires p != a
    ensures (chunks[a := freed] - {a})[p := once] == (chunks - {a} - {})[p := once]
    ensures ((chunks[a := freed] - {a})[p := once] - {b})[p := twice] == (chunks - {a} - {b})[p := twice]
  {
  }

  lemma ReleaseLeft(l: Layout, a: Addr, p: Addr)
    requires Inv(l) && a in l.live && Shape(Freed(l, a)) && RunStart(Freed(l, a), a) == p
    requires p < a && IsFree(l, p) && p + l.chunks[p].size == a
    ensures a in l.chunks && Joined(l, a, p, Release(l, a))
  {
    hide Inv, Shape, Omit, AbsorbAll, Absorb, RunStart;
    RightEnds(l, a);
    var f, b := Freed(l, a), a + l.chunks[a].size;
    AbsorbRound(f, p);
    OmitFirst(a, l.free);
    var m := Absorb(f, p);
    assert IsFree(m, b) <==> IsFree(l, b);
    AbsorbLast(m, p);
    TakenOver(l.chunks, a, f.chunks[a], p, m.chunks[p], b, AbsorbAll(m, p).chunks[p]);
    assert Omit(l.live, a) == f.live by { OmitIs(l.live, a); }
  }

  /**
   A release in closed form, without its loops.  The chunk joins the free one that ends where it begins,
   if there is one, and the free one that begins where it ends, if there is one.  The joined chunk keeps
   the left one's place in the free list, or goes to the front; the others stay in order.
   */
  lemma ReleaseExact(l: Layout, a: Addr) returns (p: Addr)
    requires Inv(l) && a in l.live
    ensures a in l.chunks && p <= a && Joined(l, a, p, Release(l, a))
    ensures if p == a then forall c: Addr | IsFree(l, c) :: c + l.chunks[c].size != a
            else IsFree(l, p) && p + l.chunks[p].size == a
  {
    var f := Freed(l, a);
    FreedKeepsShape(l, a);
    RunStartInRun(f, a);
    p := RunStart(f, a);
    hide Joined;
    if p == a {
      ReleaseAlone(l, a);
      forall c: Addr | IsFree(l, c) ensures c + l.chunks[c].size != a {
        assert ChunkOk(l, c) && f.chunks[c] == l.chunks[c];
      }
    } else {
      RunStartIsLeft(l, a);
      ReleaseLeft(l, a, p);
    }
  }

  // ----- allocations keep layouts sound

  /** The chunk size handed out for a request of n bytes: n, or up to OVERHEAD more when it is not split. */
  lemma TakeSound(l: Layout, i: nat, n: nat)
    requires Inv(l) && i < |l.free| && OVERHEAD < n && Fits(l, l.free[i], n)
    ensures Inv(Take(l, i, n))
    ensures Take(l, i, n).start == l.start && Take(l, i, n).end == l.end
    ensures l.free[i] !in l.live && Take(l, i, n).live == [l.free[i]] + l.live
    ensures l.free[i] in Take(l, i, n).chunks && n <= Take(l, i, n).chunks[l.free[i]].size <= n + OVERHEAD
    ensures forall x {:trigger x in l.live} | x in l.live ::
      x in l.chunks && x in Take(l, i, n).chunks && Take(l, i, n).chunks[x] == l.chunks[x]
  {
    assert l.free[i] in l.free && l.free[i] !in l.live && ChunkOk(l, l.free[i]);
    TakeTiled(l, i, n);
    TakeListed(l, i, n);
    TakeTotal(l, i, n);
    TakeCoalesced(l, i, n);
    forall x | x in l.live
      ensures x in l.chunks && x in Take(l, i, n).chunks && Take(l, i, n).chunks[x] == l.chunks[x]
    {
      Compare(l, l.free[i], x);
    }
  }

  /** A split that would leave a chunk no larger than header and footer is the one thing that breaks an arena. */
  lemma TakeExact(l: Layout, i: nat, n: nat)
    requires Inv(l) && i < |l.free| && Fits(l, l.free[i], n)
    ensures Inv(Take(l, i, n)) <==> OVERHEAD < n || !Splits(l, l.free[i], n)
  {
    var a := l.free[i];
    assert a in l.free && ChunkOk(l, a);
    if OVERHEAD < n {
      TakeSound(l, i, n);
    } else if !Splits(l, a, n) {
      TakeSound(l, i, OVERHEAD + 1);
    } else {
      var t := Take(l, i, n);
      assert t.live[0] == a && a in t.live;
      if n == 0 {
        assert t.chunks[a].free && !Listed(t);
      } else {
        assert t.chunks[a].size == n && !ChunkOk(t, a) && !Tiled(t);
      }
    }
  }

  lemma TakeCoalesced(l: Layout, i: nat, n: nat)
    requires Inv(l) && i < |l.free| && OVERHEAD < n && Fits(l, l.free[i], n)
    ensures Coalesced(Take(l, i, n))
  {
    forall x: Addr ensures !FreePair(Take(l, i, n), x) {
      TakeNoPair(l, i, n, x);
    }
  }

  lemma TakeNoPair(l: Layout, i: nat, n: nat, x: Addr)
    requires Inv(l) && i < |l.free| && OVERHEAD < n && Fits(l, l.free[i], n)
    ensures !FreePair(Take(l, i, n), x)
  {
    var a := l.free[i];
    assert a in l.free && !FreePair(l, x) && !FreePair(l, a);
    if x in l.chunks {
      Compare(l, x, a);
    }
  }

  lemma TakeTiled(l: Layout, i: nat, n: nat)
    requires Tiled(l) && i < |l.free| && OVERHEAD < n && Fits(l, l.free[i], n)
    ensures Tiled(Take(l, i, n))
  {
    var m := Take(l, i, n);
    forall c | c in m.chunks ensures ChunkOk(m, c) {
      TakeChunkOk(l, i, n, c);
    }
    forall c, d | c in m.chunks && d in m.chunks && c < d ensures Before(m, c, d) {
      TakeBefore(l, i, n, c, d);
    }
  }

  lemma RestIsNew(l: Layout, i: nat, n: nat)
    requires Tiled(l) && i < |l.free| && OVERHEAD < n && Fits(l, l.free[i], n)
    ensures Splits(l, l.free[i], n) ==> l.free[i] + n !in l.chunks
  {
    if l.free[i] + n in l.chunks {
      Compare(l, l.free[i], l.free[i] + n);
    }
  }

  lemma TakeChunkOk(l: Layout, i: nat, n: nat, c: Addr)
    requires Tiled(l) && i < |l.free| && OVERHEAD < n && Fits(l, l.free[i], n)
    requires c in Take(l, i, n).chunks
    ensures ChunkOk(Take(l, i, n), c)
  {
    var a := l.free[i];
    assert ChunkOk(l, a);
    if c in l.chunks {
      Compare(l, a, c);
    }
  }

  lemma TakeBefore(l: Layout, i: nat, n: nat, c: Addr, d: Addr)
    requires Tiled(l) && i < |l.free| && OVERHEAD < n && Fits(l, l.free[i], n)
    requires c in Take(l, i, n).chunks && d in Take(l, i, n).chunks && c < d
    ensures Before(Take(l, i, n), c, d)
  {
    var a := l.free[i];
    if c in l.chunks && d in l.chunks {
      Compare(l, c, d);
      Compare(l, a, c);
    } else if c in l.chunks {
      Compare(l, a, c);
    } else {
      Compare(l, a, d);
    }
  }

  lemma TakeListed(l: Layout, i: nat, n: nat)
    requires Tiled(l) && Listed(l) && i < |l.free| && OVERHEAD < n && Fits(l, l.free[i], n)
    ensures Listed(Take(l, i, n))
  {
    var a, m := l.free[i], Take(l, i, n);
    assert a in l.free && a !in l.live && ChunkOk(l, a);
    RestIsNew(l, i, n);
    RemoveAtMembers(l.free, i);
    if Splits(l, a, n) {
      UpdateMembers(l.free, i, a + n);
      assert a + n !in l.free && a + n !in l.live;
    }
    forall x ensures x in m.free <==> x in m.chunks && m.chunks[x].free {
      assert x in l.free <==> x in l.chunks && l.chunks[x].free;
      if Splits(l, a, n) {
        assert x in m.free <==> x == a + n || (x in l.free && x != a);
      } else {
        assert x in m.free <==> x in l.free && x != a;
      }
    }
    forall x ensures x in m.live <==> x in m.chunks && !m.chunks[x].free {
      assert x in m.live <==> x == a || x in l.live;
    }
  }

  lemma UpdateMembers(xs: seq<Addr>, i: nat, y: Addr)
    requires Distinct(xs) && i < |xs| && y !in xs
    ensures Distinct(xs[i := y])
    ensures forall x {:trigger x in xs[i := y]} :: x in xs[i := y] <==> x == y || (x in xs && x != xs[i])
  {
    var ys := xs[i := y];
    assert ys[i] == y;
    forall x | x in xs && x != xs[i] ensures x in ys {
      var j :| 0 <= j < |xs| && xs[j] == x;
      assert ys[j] == x;
    }
  }

  lemma TakeTotal(l: Layout, i: nat, n: nat)
    requires Tiled(l) && Listed(l) && i < |l.free| && OVERHEAD < n && Fits(l, l.free[i], n)
    ensures Total(Take(l, i, n).chunks, Take(l, i, n).free) + Total(Take(l, i, n).chunks, Take(l, i, n).live)
         == Total(l.chunks, l.free) + Total(l.chunks, l.live)
    ensures Total(Take(l, i, n).chunks, Take(l, i, n).live)
         == Total(l.chunks, l.live) + Take(l, i, n).chunks[l.free[i]].size
  {
    var a, m := l.free[i], Take(l, i, n);
    assert a in l.free && a !in l.live;
    RestIsNew(l, i, n);
    RemoveAtMembers(l.free, i);
    TotalRemoveAt(l.chunks, l.free, i);
    var rest := RemoveAt(l.free, i);
    forall x | x in rest ensures x in l.chunks && x in m.chunks && l.chunks[x].size == m.chunks[x].size {
      assert x in l.free;
    }
    TotalSame(l.chunks, m.chunks, rest);
    TotalSame(l.chunks, m.chunks, l.live);
    assert m.live[1..] == l.live;
    if Splits(l, a, n) {
      assert RemoveAt(m.free, i) == rest;
      TotalRemoveAt(m.chunks, m.free, i);
    }
  }

  // ----- consequences

  /** What is left of a split chunk takes its place in the free list; the other free chunks stay in order. */
  lemma TakeOrder(l: Layout, i: nat, n: nat)
    requires Inv(l) && i < |l.free| && OVERHEAD < n && Fits(l, l.free[i], n)
    ensures var t, a := Take(l, i, n), l.free[i];
      && t.free == l.free[..i] + (if l.chunks[a].size - n > 40 then [a + n] else []) + l.free[i + 1..]
      && forall c {:trigger t.chunks[c]} | c in t.chunks && c != a && c != a + n ::
        c in l.chunks && t.chunks[c] == l.chunks[c]
  {
    assert l.free[i] in l.free;
  }

  lemma TakeNoLeft(l: Layout, i: nat, n: nat)
    requires Inv(l) && i < |l.free| && OVERHEAD < n && Fits(l, l.free[i], n)
    ensures var t := Take(l, i, n);
      forall c: Addr {:trigger IsFree(t, c)} | IsFree(t, c) :: c + t.chunks[c].size != l.free[i]
  {
    var t, a := Take(l, i, n), l.free[i];
    assert a in l.free;
    forall c: Addr | IsFree(t, c) ensures c + t.chunks[c].size != a {
      assert !FreePair(l, c);
    }
  }

  /** What follows the chunk handed out, joined to it, is the chunk there was. */
  lemma TakeRight(l: Layout, i: nat, n: nat)
    requires Inv(l) && i < |l.free| && OVERHEAD < n && Fits(l, l.free[i], n)
    ensures var t, a := Take(l, i, n), l.free[i];
      var b := a + t.chunks[a].size;
      && (if IsFree(t, b) then t.chunks[a].size + t.chunks[b].size else t.chunks[a].size) == l.chunks[a].size
      && t.chunks - {a} - (if IsFree(t, b) then {b} else {}) == l.chunks - {a}
  {
    var t, a := Take(l, i, n), l.free[i];
    var b := a + t.chunks[a].size;
    assert a in l.free && !FreePair(l, a);
    RestIsNew(l, i, n);
    assert IsFree(t, b) <==> Splits(l, a, n);
  }

  lemma TakeOmits(l: Layout, i: nat, n: nat)
    requires Inv(l) && i < |l.free| && OVERHEAD < n && Fits(l, l.free[i], n)
    ensures var t, a := Take(l, i, n), l.free[i]; Omit(t.free, a + t.chunks[a].size) == RemoveAt(l.free, i)
  {
    hide Omit, RemoveAt;
    var t, a := Take(l, i, n), l.free[i];
    var b := a + t.chunks[a].size;
    RightIsNew(l, i, n);
    if Splits(l, a, n) {
      OmitReplaced(l.free, i, b);
    } else {
      OmitNone(l.free, i, b);
    }
  }

  /** Nothing free in l begins where the chunk handed out ends. */
  lemma RightIsNew(l: Layout, i: nat, n: nat)
    requires Inv(l) && i < |l.free| && OVERHEAD < n && Fits(l, l.free[i], n)
    ensures l.free[i] in Take(l, i, n).chunks && l.free[i] + Take(l, i, n).chunks[l.free[i]].size !in l.free
  {
    assert l.free[i] in l.free && !FreePair(l, l.free[i]);
    RestIsNew(l, i, n);
  }

  lemma OmitNone(xs: seq<Addr>, i: nat, y: Addr)
    requires i < |xs| && y !in xs
    ensures Omit(RemoveAt(xs, i), y) == RemoveAt(xs, i)
  {
    assert y !in RemoveAt(xs, i);
  }

  lemma OmitReplaced(xs: seq<Addr>, i: nat, y: Addr)
    requires i < |xs| && y !in xs
    ensures Omit(xs[i := y], y) == RemoveAt(xs, i)
  {
    assert xs[i := y][i] == y && IndexOf(xs[i := y], y) == i;
  }

  /** Releasing what was just allocated gives all chunks and blocks back; only the free list has a new front. */
  lemma TakeUndone(l: Layout, i: nat, n: nat)
    requires Inv(l) && i < |l.free| && OVERHEAD < n && Fits(l, l.free[i], n)
    ensures Inv(Take(l, i, n)) && l.free[i] in Take(l, i, n).live
    ensures Release(Take(l, i, n), l.free[i]) == l.(free := [l.free[i]] + RemoveAt(l.free, i))
  {
    hide Inv, Take, Release, Omit, RemoveAt, Joined;
    var t, a := Take(l, i, n), l.free[i];
    TakeSound(l, i, n);
    FrontIsFree(l, i);
    assert a in t.live by { assert t.live[0] == a; }
    ReleaseSound(t, a);
    TakeNoLeft(l, i, n);
    var p := ReleaseExact(t, a);
    assert p == a;
    UndoneJoined(l, i, n, Release(t, a));
  }

  lemma FrontIsFree(l: Layout, i: nat)
    requires Inv(l) && i < |l.free|
    ensures IsFree(l, l.free[i])
  {
    assert l.free[i] in l.free;
  }

  lemma UndoneJoined(l: Layout, i: nat, n: nat, r: Layout)
    requires Inv(l) && i < |l.free| && OVERHEAD < n && Fits(l, l.free[i], n) && IsFree(l, l.free[i])
    requires l.free[i] in Take(l, i, n).chunks && Take(l, i, n).live == [l.free[i]] + l.live
    requires Joined(Take(l, i, n), l.free[i], l.free[i], r)
    ensures r.chunks == l.chunks && r.free == [l.free[i]] + RemoveAt(l.free, i) && r.live == l.live
  {
    hide Inv, Take, Omit, RemoveAt;
    var a := l.free[i];
    TakeRight(l, i, n);
    TakeOmits(l, i, n);
    OmitFirst(a, l.live);
    assert (l.chunks - {a})[a := l.chunks[a]] == l.chunks;
  }

  lemma FreshSound(start: Addr, size: nat)
    requires NULL < start && OVERHEAD < size
    ensures Inv(Fresh(start, size))
  {
    var l := Fresh(start, size);
    assert Total(l.chunks, l.free) == size;
    assert ChunkOk(l, start);
  }

  /** The tiling has no gap: every byte of the arena lies in a chunk, and in only one. */
  lemma {:induction false} ByteInOneChunk(l: Layout, x: Addr, from: Addr)
    requires Tiled(l) && from in l.chunks && from <= x < l.end
    ensures exists a :: a in l.chunks && a <= x < a + l.chunks[a].size
    ensures forall a, b | a in l.chunks && b in l.chunks
        && a <= x < a + l.chunks[a].size && b <= x < b + l.chunks[b].size :: a == b
    decreases l.end - from
  {
    assert ChunkOk(l, from);
    if from + l.chunks[from].size <= x {
      ByteInOneChunk(l, x, from + l.chunks[from].size);
    }
    forall a, b | a in l.chunks && b in l.chunks
        && a <= x < a + l.chunks[a].size && b <= x < b + l.chunks[b].size
      ensures a == b
    {
      assert a < b ==> Before(l, a, b);
      assert b < a ==> Before(l, b, a);
    }
  }

  lemma FirstMembers(xs: seq<Addr>)
    ensures xs == [] || xs[0] in xs
    ensures |xs| < 2 || xs[1] in xs
  {
  }

  /** With nothing allocated the arena is one free chunk again. */
  lemma EmptyIsFresh(l: Layout)
    requires Inv(l) && l.live == []
    ensures l == Fresh(l.start, l.end - l.start)
  {
    var s := l.start;
    assert s !in l.live && s in l.free && ChunkOk(l, s);
    var next := s + l.chunks[s].size;
    assert next !in l.live && !FreePair(l, s);
    assert next == l.end;
    forall a | a in l.chunks ensures a == s {
      Compare(l, s, a);
    }
    assert l.chunks == map[s := l.chunks[s]];
    forall i | 0 <= i < |l.free| ensures l.free[i] == s {
      assert l.free[i] in l.free;
    }
    FirstMembers(l.free);
    assert |l.free| == 1;
  }

  /** Release the blocks in order, one after the other. */
  ghost function ReleaseAll(l: Layout, order: seq<Addr>): Layout
    requires Inv(l) && Distinct(order) && (forall x | x in order :: x in l.live)
    decreases |order|
  {
    if order == [] then l else
      ReleaseSound(l, order[0]);
      ReleaseLeavesRest(l, order);
      ReleaseAll(Release(l, order[0]), order[1..])
  }

  lemma ReleaseLeavesRest(l: Layout, order: seq<Addr>)
    requires Inv(l) && Distinct(order) && order != [] && (forall x | x in order :: x in l.live)
    ensures Distinct(order[1..]) && forall x | x in order[1..] :: x in Release(l, order[0]).live
  {
    ReleaseSound(l, order[0]);
    RemoveAtMembers(l.live, IndexOf(l.live, order[0]));
    forall x | x in order[1..] ensures x in Release(l, order[0]).live {
      var j :| 0 <= j < |order[1..]| && order[1..][j] == x;
      assert order[j + 1] == x && order[0] != order[j + 1];
      assert x in RemoveAt(l.live, IndexOf(l.live, order[0]));
    }
  }

  /** Releasing every allocated block, in any order whatever, gives back one full-size free chunk. */
  lemma {:induction false} ReleaseAllGivesFresh(l: Layout, order: seq<Addr>)
    requires Inv(l) && Distinct(order)
    requires forall x {:trigger x in l.live} :: x in order <==> x in l.live
    ensures ReleaseAll(l, order) == Fresh(l.start, l.end - l.start)
    decreases |order|
  {
    if order == [] {
      FirstMembers(l.live);
      EmptyIsFresh(l);
    } else {
      FirstMembers(order);
      assert order[0] in l.live;
      ReleaseSound(l, order[0]);
      ReleaseLeavesExactly(l, order);
      ReleaseAllGivesFresh(Release(l, order[0]), order[1..]);
    }
  }

  lemma ReleaseLeavesExactly(l: Layout, order: seq<Addr>)
    requires Inv(l) && Distinct(order) && order != [] && order[0] in l.live
    requires forall x {:trigger x in l.live} :: x in order <==> x in l.live
    ensures Distinct(order[1..])
    ensures forall x {:trigger x in Release(l, order[0]).live} :: x in order[1..] <==> x in Release(l, order[0]).live
  {
    ReleaseMembers(l, order[0]);
    RemoveAtMembers(order, 0);
    assert RemoveAt(order, 0) == order[1..];
  }

  function Members(xs: seq<Addr>): set<Addr> {
    set x | x in xs
  }

  lemma {:induction false} CardOfDistinct(xs: seq<Addr>)
    requires Distinct(xs)
    ensures |Members(xs)| == |xs|
  {
    if xs != [] {
      RemoveAtMembers(xs, 0);
      assert RemoveAt(xs, 0) == xs[1..];
      CardOfDistinct(xs[1..]);
      MembersOfCons(xs);
    }
  }

  lemma MembersOfCons(xs: seq<Addr>)
    requires xs != [] && xs[0] !in xs[1..]
    ensures Members(xs) == {xs[0]} + Members(xs[1..]) && xs[0] !in Members(xs[1..])
  {
    assert xs == [xs[0]] + xs[1..];
  }

  lemma {:induction false} CardOfSubset(s: set<Addr>, t: set<Addr>)
    requires s <= t
    ensures |s| <= |t|
  {
    if s != {} {
      var x :| x in s;
      CardOfSubset(s - {x}, t - {x});
    }
  }

  /** Since no two free chunks touch, there is at most one more free chunk than allocated ones. */
  lemma FreeCount(l: Layout)
    requires Inv(l)
    ensures |l.free| <= |l.live| + 1
  {
    forall i | 0 <= i < |l.free| ensures l.free[i] in l.chunks {
      assert l.free[i] in l.free;
    }
    var ends: seq<Addr> := seq(|l.free|, i requires 0 <= i < |l.free| => l.free[i] + l.chunks[l.free[i]].size);
    forall i, j | 0 <= i < j < |ends| ensures ends[i] != ends[j] {
      var a, b := l.free[i], l.free[j];
      assert ChunkOk(l, a) && ChunkOk(l, b);
      assert a < b ==> Before(l, a, b);
      assert b < a ==> Before(l, b, a);
    }
    forall i | 0 <= i < |ends| && ends[i] != l.end ensures ends[i] in l.live {
      assert l.free[i] in l.free && ChunkOk(l, l.free[i]) && !FreePair(l, l.free[i]);
    }
    var s, t := Members(ends), Members(l.live);
    CardOfDistinct(ends);
    CardOfDistinct(l.live);
    forall x | x in s ensures x in t + {l.end} {
      var i :| 0 <= i < |ends| && ends[i] == x;
    }
    CardOfSubset(s, t + {l.end});
    assert |t + {l.end}| <= |t| + 1;
  }

  lemma {:induction false} TotalAtMost(chunks: map<Addr, Chunk>, xs: seq<Addr>, k: nat)
    requires forall x | x in xs :: x in chunks && chunks[x].size <= k
    ensures Total(chunks, xs) <= |xs| * k
  {
    if xs != [] {
      assert xs[0] in xs;
      TotalAtMost(chunks, xs[1..], k);
      OneMore(|xs[1..]|, k);
    }
  }

  lemma OneMore(k: nat, b: nat)
    ensures (k + 1) * b == k * b + b
  {
  }

  /**
   A roomy arena always has a fitting chunk: when at most count blocks of at most most bytes are
   allocated, what is free is spread over at most count + 1 chunks.
   */
  lemma RoomyHasFit(l: Layout, n: nat, count: nat, most: nat)
    requires Inv(l) && n > 0 && |l.live| <= count
    requires forall x | x in l.live :: x in l.chunks && l.chunks[x].size <= most
    requires l.end - l.start > count * most + (count + 1) * (n - 1)
    ensures HasFit(l, n)
  {
    if !HasFit(l, n) {
      FreeCount(l);
      forall x | x in l.free ensures x in l.chunks && l.chunks[x].size <= n - 1 {
        var j :| 0 <= j < |l.free| && l.free[j] == x;
        assert !Fits(l, l.free[j], n);
      }
      TotalAtMost(l.chunks, l.free, n - 1);
      TotalAtMost(l.chunks, l.live, most);
      Times(|l.live|, count, most);
      Times(|l.free|, count + 1, n - 1);
      assert false;
    }
  }

  lemma Times(a: nat, b: nat, k: nat)
    requires a <= b
    ensures a * k <= b * k
  {
  }

  lemma TimesMono(a: nat, b: nat, k: nat)
    ensures a <= b ==> a * k <= b * k
  {
    if a <= b {
      Times(a, b, k);
    }
  }

  /** The arena-level quick reject (line 189) never skips an arena that has a fitting chunk. */
  lemma QuickRejectSound(l: Layout, n: nat)
    requires Inv(l) && (l.end - l.start) - Total(l.chunks, l.live) < n
    ensures !HasFit(l, n)
  {
    if HasFit(l, n) {
      assert l.free[FirstFit(l, n)] in l.free;
      TotalAtLeast(l.chunks, l.free, l.free[FirstFit(l, n)]);
    }
  }
}
