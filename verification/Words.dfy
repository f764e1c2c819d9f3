/**
 A flat, byte-addressed memory, and the doubly linked lists of chunk headers that
 memorypool.cpp threads through it.
 */
module Words {
  // Every cell is one eight-byte word named by its first byte.  A store destroys every cell it
  // overlaps, so reading a cell obliges the verifier to show that it was written and that no
  // later store ran into it.

  type Addr = nat
  type Mem = map<Addr, nat>

  const NULL: Addr := 0
  const WORD: nat := 8

  /** The fields of struct _mp_chunk, as byte offsets from the header (LP64). */
  const PREV: nat := 8
  const NEXT: nat := 16
  const IS_FREE: nat := 24
  const HEADER: nat := 32

  predicate Apart(a: Addr, b: Addr) {
    a + WORD <= b || b + WORD <= a
  }

  /** Headers at a and b do not overlap. */
  predicate Clear(a: Addr, b: Addr) {
    a + HEADER <= b || b + HEADER <= a
  }

  /** The cell at a was written, and holds v. */
  ghost predicate Holds(m: Mem, a: Addr, v: nat) {
    a in m && m[a] == v
  }

  function Store(m: Mem, a: Addr, v: nat): (r: Mem)
    ensures Holds(r, a, v)
    ensures forall k {:trigger Apart(k, a)} | Apart(k, a) && k in m :: k in r && r[k] == m[k]
  {
    (map k | k in m && Apart(k, a) :: m[k])[a := v]
  }

  /** Words stored one after the other. */
  function StoreAll(m: Mem, at: Addr, words: seq<nat>): Mem
    decreases |words|
  {
    if words == [] then m else
      var n := |words| - 1;
      Store(StoreAll(m, at, words[..n]), at + WORD * n, words[n])
  }

  /** The loop that does it. */
  method StoreEach(m: Mem, at: Addr, words: seq<nat>) returns (m': Mem)
    ensures m' == StoreAll(m, at, words)
  {
    hide Store;
    m' := m;
    for i := 0 to |words|
      invariant m' == StoreAll(m, at, words[..i])
    {
      assert words[..i + 1][..i] == words[..i];
      m' := Store(m', at + WORD * i, words[i]);
    }
    assert words[..|words|] == words;
  }

  function RemoveAt<T>(xs: seq<T>, i: nat): seq<T>
    requires i < |xs|
  {
    xs[..i] + xs[i + 1..]
  }

  function Head(xs: seq<Addr>): Addr {
    if xs == [] then NULL else xs[0]
  }

  function PrevOf(xs: seq<Addr>, i: nat): Addr
    requires i < |xs|
  {
    if i == 0 then NULL else xs[i - 1]
  }

  function NextOf(xs: seq<Addr>, i: nat): Addr
    requires i < |xs|
  {
    if i + 1 == |xs| then NULL else xs[i + 1]
  }

  /** The headers of distinct list members do not overlap. */
  ghost predicate Spaced(xs: seq<Addr>) {
    forall i, j {:trigger Clear(xs[i], xs[j])} | 0 <= i < |xs| && 0 <= j < |xs| && i != j :: Clear(xs[i], xs[j])
  }

  /** head is the front of a doubly linked list in m whose members are xs, in order. */
  ghost predicate Linked(m: Mem, head: Addr, xs: seq<Addr>) {
    && head == Head(xs)
    && forall i | 0 <= i < |xs| :: LinkAt(m, xs, i)
  }

  ghost predicate LinkAt(m: Mem, xs: seq<Addr>, i: nat)
    requires i < |xs|
  {
    && xs[i] != NULL
    && Holds(m, xs[i] + PREV, PrevOf(xs, i))
    && Holds(m, xs[i] + NEXT, NextOf(xs, i))
  }

  /** Every word of m apart from the three named cells is the same in m'. */
  ghost predicate SameBut(m: Mem, m': Mem, t0: Addr, t1: Addr, t2: Addr) {
    forall k | k in m && Apart(k, t0) && Apart(k, t1) && Apart(k, t2) :: k in m' && m'[k] == m[k]
  }

  /** MP_DLINKLIST_INS_FRT. */
  method InsertFront(m: Mem, head: Addr, x: Addr, ghost xs: seq<Addr>) returns (m': Mem, head': Addr)
    requires Linked(m, head, xs) && Spaced([x] + xs) && x != NULL
    ensures Linked(m', head', [x] + xs)
    ensures SameBut(m, m', x + PREV, x + NEXT, (if xs == [] then x else xs[0]) + PREV)
  {
    ghost var ys := [x] + xs;
    assert xs != [] ==> LinkAt(m, xs, 0) && ys[1] == xs[0] && Clear(ys[0], ys[1]);
    m' := Store(m, x + PREV, NULL);
    m' := Store(m', x + NEXT, head);
    if head != NULL {
      m' := Store(m', head + PREV, x);
    }
    head' := x;
    InsertFrontLinks(m, m', head, x, xs);
  }

  lemma InsertFrontLinks(m: Mem, m': Mem, head: Addr, x: Addr, xs: seq<Addr>)
    requires Linked(m, head, xs) && Spaced([x] + xs) && x != NULL
    requires Holds(m', x + PREV, NULL)
    requires Holds(m', x + NEXT, head)
    requires xs != [] ==> Holds(m', xs[0] + PREV, x)
    requires SameBut(m, m', x + PREV, x + NEXT, (if xs == [] then x else xs[0]) + PREV)
    ensures Linked(m', x, [x] + xs)
  {
    var ys := [x] + xs;
    forall i | 0 <= i < |ys|
      ensures LinkAt(m', ys, i)
    {
      if i > 0 {
        assert LinkAt(m, xs, i - 1);
        assert Clear(ys[i], ys[0]);
        assert i > 1 ==> Clear(ys[i], ys[1]);
        assert ys[i] == xs[i - 1];
        assert Apart(xs[i - 1] + NEXT, x + PREV);
        assert Apart(xs[i - 1] + PREV, x + PREV);
      }
    }
  }

  /** The memory after list neighbours p and n were made to point at after and before. */
  function Joined(m: Mem, p: Addr, n: Addr, after: Addr, before: Addr): Mem {
    var m1 := if p == NULL then m else Store(m, p + NEXT, after);
    if n == NULL then m1 else Store(m1, n + PREV, before)
  }

  /** MP_DLINKLIST_DEL. */
  method Delete(m: Mem, head: Addr, x: Addr, ghost xs: seq<Addr>, ghost i: nat) returns (m': Mem, head': Addr)
    requires Linked(m, head, xs) && Spaced(xs) && i < |xs| && xs[i] == x
    ensures Linked(m', head', RemoveAt(xs, i))
    ensures SameBut(m, m', (if i == 0 then x else xs[i - 1]) + NEXT, (if i + 1 == |xs| then x else xs[i + 1]) + PREV,
      x + PREV)
  {
    hide Linked, SameBut, Spaced, RemoveAt;
    DeleteSound(m, head, xs, i);
    ghost var p, n := PrevOf(xs, i), NextOf(xs, i);
    m', head' := m, head;
    if m[x + PREV] == NULL {
      head' := m[x + NEXT];
      if m[x + NEXT] != NULL {
        m' := Store(m, m[x + NEXT] + PREV, NULL);
      }
    } else {
      m' := Store(m, m[x + PREV] + NEXT, m[x + NEXT]);
      assert m'[x + NEXT] == n && m'[x + PREV] == p;
      if m'[x + NEXT] != NULL {
        m' := Store(m', m'[x + NEXT] + PREV, m'[x + PREV]);
      }
    }
    assert m' == Joined(m, p, n, n, p);
  }

  lemma DeleteSound(m: Mem, head: Addr, xs: seq<Addr>, i: nat)
    requires Linked(m, head, xs) && Spaced(xs) && i < |xs|
    ensures Holds(m, xs[i] + PREV, PrevOf(xs, i))
    ensures Holds(m, xs[i] + NEXT, NextOf(xs, i))
    ensures PrevOf(xs, i) == NULL <==> i == 0
    ensures PrevOf(xs, i) != NULL ==>
      Apart(xs[i] + NEXT, PrevOf(xs, i) + NEXT) && Apart(xs[i] + PREV, PrevOf(xs, i) + NEXT)
    ensures var m' := Joined(m, PrevOf(xs, i), NextOf(xs, i), NextOf(xs, i), PrevOf(xs, i));
      && Linked(m', if i == 0 then NextOf(xs, i) else head, RemoveAt(xs, i))
      && SameBut(m, m', (if i == 0 then xs[i] else xs[i - 1]) + NEXT,
        (if i + 1 == |xs| then xs[i] else xs[i + 1]) + PREV, xs[i] + PREV)
  {
    assert LinkAt(m, xs, i);
    PrevNull(m, head, xs, i);
    if i > 0 {
      SelfApart(m, head, xs, i);
    }
    JoinedAt(m, head, xs, i, NextOf(xs, i), PrevOf(xs, i));
    DeleteLinks(m, Joined(m, PrevOf(xs, i), NextOf(xs, i), NextOf(xs, i), PrevOf(xs, i)), head, xs, i);
  }

  lemma PrevNull(m: Mem, head: Addr, xs: seq<Addr>, i: nat)
    requires Linked(m, head, xs) && i < |xs|
    ensures PrevOf(xs, i) == NULL <==> i == 0
    ensures NextOf(xs, i) == NULL <==> i + 1 == |xs|
  {
    assert i > 0 ==> LinkAt(m, xs, i - 1);
    assert i + 1 < |xs| ==> LinkAt(m, xs, i + 1);
  }

  lemma HeadNull(m: Mem, head: Addr, xs: seq<Addr>)
    requires Linked(m, head, xs)
    ensures head == NULL <==> xs == []
  {
    assert xs != [] ==> LinkAt(m, xs, 0);
  }

  lemma SelfApart(m: Mem, head: Addr, xs: seq<Addr>, i: nat)
    requires Linked(m, head, xs) && Spaced(xs) && i < |xs| && PrevOf(xs, i) != NULL
    ensures Apart(xs[i] + NEXT, PrevOf(xs, i) + NEXT) && Apart(xs[i] + PREV, PrevOf(xs, i) + NEXT)
  {
    assert Clear(xs[i], xs[i - 1]);
  }

  lemma JoinedAt(m: Mem, head: Addr, xs: seq<Addr>, i: nat, after: Addr, before: Addr)
    requires Linked(m, head, xs) && Spaced(xs) && i < |xs|
    ensures var m' := Joined(m, PrevOf(xs, i), NextOf(xs, i), after, before);
      && (i > 0 ==> Holds(m', xs[i - 1] + NEXT, after))
      && (i + 1 < |xs| ==> Holds(m', xs[i + 1] + PREV, before))
      && SameBut(m, m', (if i == 0 then xs[i] else xs[i - 1]) + NEXT,
        (if i + 1 == |xs| then xs[i] else xs[i + 1]) + PREV, xs[i] + PREV)
  {
    PrevNull(m, head, xs, i);
    assert 0 < i && i + 1 < |xs| ==> Clear(xs[i - 1], xs[i + 1]);
    assert 0 < i && i + 1 < |xs| ==> Apart(xs[i - 1] + NEXT, xs[i + 1] + PREV);
  }

  lemma DeleteLinks(m: Mem, m': Mem, head: Addr, xs: seq<Addr>, i: nat)
    requires Linked(m, head, xs) && Spaced(xs) && i < |xs|
    requires i > 0 ==> Holds(m', xs[i - 1] + NEXT, NextOf(xs, i))
    requires i + 1 < |xs| ==> Holds(m', xs[i + 1] + PREV, PrevOf(xs, i))
    requires SameBut(m, m', (if i == 0 then xs[i] else xs[i - 1]) + NEXT,
      (if i + 1 == |xs| then xs[i] else xs[i + 1]) + PREV, xs[i] + PREV)
    ensures Linked(m', if i == 0 then NextOf(xs, i) else head, RemoveAt(xs, i))
  {
    var ys := RemoveAt(xs, i);
    forall j | 0 <= j < |ys|
      ensures LinkAt(m', ys, j)
    {
      var k := if j < i then j else j + 1;
      assert LinkAt(m, xs, k);
      assert ys[j] == xs[k] && Clear(xs[k], xs[i]);
      assert i > 0 && k != i - 1 ==> Clear(xs[k], xs[i - 1]);
      assert i + 1 < |xs| && k != i + 1 ==> Clear(xs[k], xs[i + 1]);
      assert k != i + 1 ==> PrevOf(ys, j) == PrevOf(xs, k);
      assert k + 1 != i ==> NextOf(ys, j) == NextOf(xs, k);
    }
  }

  /** Lines 212-218 of memorypool.cpp: y, a copy of list member x, takes its place in the list. */
  method Replace(m: Mem, head: Addr, y: Addr, ghost xs: seq<Addr>, ghost i: nat) returns (m': Mem, head': Addr)
    requires Linked(m, head, xs) && Spaced(xs) && i < |xs| && y != NULL && Spaced(xs[i := y])
    requires Holds(m, y + PREV, PrevOf(xs, i))
    requires Holds(m, y + NEXT, NextOf(xs, i))
    ensures Linked(m', head', xs[i := y])
    ensures SameBut(m, m', (if i == 0 then xs[i] else xs[i - 1]) + NEXT,
      (if i + 1 == |xs| then xs[i] else xs[i + 1]) + PREV, xs[i] + PREV)
  {
    m', head' := m, head;
    PrevNull(m, head, xs, i);
    if m[y + PREV] == NULL {
      head' := y;
    } else {
      assert Clear(xs[i := y][i], xs[i := y][i - 1]);
      assert Apart(y + NEXT, m[y + PREV] + NEXT) && Apart(y + PREV, m[y + PREV] + NEXT);
      m' := Store(m, m[y + PREV] + NEXT, y);
    }
    if m'[y + NEXT] != NULL {
      assert i + 1 < |xs| ==> Clear(xs[i := y][i], xs[i := y][i + 1]) && Apart(y + NEXT, xs[i + 1] + PREV);
      m' := Store(m', m'[y + NEXT] + PREV, y);
    }
    assert m' == Joined(m, PrevOf(xs, i), NextOf(xs, i), y, y);
    assert i + 1 < |xs| ==> Clear(xs[i := y][i], xs[i := y][i + 1]) && Apart(y + PREV, xs[i + 1] + PREV);
    JoinedAt(m, head, xs, i, y, y);
    ReplaceLinks(m, m', head, xs, i, y);
  }

  lemma ReplaceLinks(m: Mem, m': Mem, head: Addr, xs: seq<Addr>, i: nat, y: Addr)
    requires Linked(m, head, xs) && Spaced(xs) && i < |xs| && y != NULL
    requires Holds(m', y + PREV, PrevOf(xs, i))
    requires Holds(m', y + NEXT, NextOf(xs, i))
    requires i > 0 ==> Holds(m', xs[i - 1] + NEXT, y)
    requires i + 1 < |xs| ==> Holds(m', xs[i + 1] + PREV, y)
    requires SameBut(m, m', (if i == 0 then xs[i] else xs[i - 1]) + NEXT,
      (if i + 1 == |xs| then xs[i] else xs[i + 1]) + PREV, xs[i] + PREV)
    ensures Linked(m', if i == 0 then y else head, xs[i := y])
  {
    var ys := xs[i := y];
    forall j | 0 <= j < |ys|
      ensures LinkAt(m', ys, j)
    {
      if j != i {
        assert LinkAt(m, xs, j);
        assert Clear(xs[j], xs[i]);
        assert i > 0 && j != i - 1 ==> Clear(xs[j], xs[i - 1]);
        assert i + 1 < |xs| && j != i + 1 ==> Clear(xs[j], xs[i + 1]);
        assert j != i + 1 ==> PrevOf(ys, j) == PrevOf(xs, j);
        assert j + 1 != i ==> NextOf(ys, j) == NextOf(xs, j);
      }
    }
  }

  /** A list survives any change that leaves its members' link words alone. */
  lemma LinkedFrame(m: Mem, m': Mem, head: Addr, xs: seq<Addr>)
    requires Linked(m, head, xs)
    requires forall x | x in xs :: SameLinks(m, m', x)
    ensures Linked(m', head, xs)
  {
    forall i | 0 <= i < |xs|
      ensures LinkAt(m', xs, i)
    {
      assert LinkAt(m, xs, i) && SameLinks(m, m', xs[i]);
    }
  }

  ghost predicate SameLinks(m: Mem, m': Mem, a: Addr) {
    && (a + PREV in m ==> Holds(m', a + PREV, m[a + PREV]))
    && (a + NEXT in m ==> Holds(m', a + NEXT, m[a + NEXT]))
  }
}
