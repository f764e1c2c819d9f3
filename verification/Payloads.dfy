/**
 One block's bytes over a whole run of its arena: whatever other blocks are allocated, released and
 written in between, they are what its owner last wrote.
 */
module Payloads {
  import opened Arenas
  import opened Layouts
  import opened Words

  datatype Heap = Heap(mem: Mem, layout: Layout)

  /** What may happen to an arena: an allocation, the release of block a, stores by the owner of block a. */
  datatype Act = Takes(i: nat, n: nat) | Releases(a: Addr) | Writes(a: Addr)

  /** The contracts of Arena.Allocate, Arena.Free and Arena.StoreWords, as relations. */
  ghost predicate Acts(h: Heap, act: Act, g: Heap)
    requires Inv(h.layout)
  {
    var l := h.layout;
    match act
    case Takes(i, n) =>
      && i < |l.free| && OVERHEAD < n && Fits(l, l.free[i], n)
      && g.layout == Take(l, i, n) && ForeignKept(h.mem, g.mem, l, NULL)
    case Releases(a) =>
      && a in l.live && g.layout == Release(l, a) && ForeignKept(h.mem, g.mem, l, a)
    case Writes(a) =>
      && a in l.live && g.layout == l && ForeignKept(h.mem, g.mem, l, a)
  }

  /** The act is not by the owner of block a. */
  predicate ByOthers(act: Act, a: Addr) {
    act.Takes? || act.a != a
  }

  lemma ActSound(h: Heap, act: Act, g: Heap)
    requires Inv(h.layout) && Acts(h, act, g)
    ensures Inv(g.layout)
  {
    match act
    case Takes(i, n) => TakeSound(h.layout, i, n);
    case Releases(a) => ReleaseSound(h.layout, a);
    case Writes(a) =>
  }

  /** heaps[0], heaps[1], ... is a run of the acts. */
  ghost predicate Run(heaps: seq<Heap>, acts: seq<Act>)
    decreases |acts|
  {
    && |heaps| == |acts| + 1 && Inv(heaps[0].layout)
    && (acts != [] ==> Acts(heaps[0], acts[0], heaps[1]) && Run(heaps[1..], acts[1..]))
  }

  /** Block a is there, as large as in l, with the same word at k. */
  ghost predicate Same(h: Heap, g: Heap, a: Addr, k: Addr) {
    && a in h.layout.chunks && a in g.layout.live && a in g.layout.chunks
    && g.layout.chunks[a] == h.layout.chunks[a]
    && k in h.mem && k in g.mem && g.mem[k] == h.mem[k]
  }

  lemma ActKeeps(h: Heap, act: Act, g: Heap, a: Addr, k: Addr)
    requires Inv(h.layout) && Acts(h, act, g) && ByOthers(act, a)
    requires a in h.layout.live && InPayload(h.layout, a, k) && k in h.mem
    ensures Same(h, g, a, k)
  {
    var l := h.layout;
    assert ChunkOk(l, a);
    match act
    case Takes(i, n) =>
      TakeSound(l, i, n);
      assert Foreign(l, NULL, k);
    case Releases(b) =>
      ReleaseMembers(l, b);
      assert Foreign(l, b, k);
    case Writes(b) =>
      assert Foreign(l, b, k);
  }

  /** Over any run of other owners' calls and stores a block keeps its place, its size and every word. */
  lemma {:induction false} RunKeeps(heaps: seq<Heap>, acts: seq<Act>, a: Addr, k: Addr)
    requires Run(heaps, acts) && forall act | act in acts :: ByOthers(act, a)
    requires a in heaps[0].layout.live && InPayload(heaps[0].layout, a, k) && k in heaps[0].mem
    ensures Inv(heaps[|acts|].layout) && Same(heaps[0], heaps[|acts|], a, k)
    decreases |acts|
  {
    if acts != [] {
      ActSound(heaps[0], acts[0], heaps[1]);
      ActKeeps(heaps[0], acts[0], heaps[1], a, k);
      RunKeeps(heaps[1..], acts[1..], a, k);
    }
  }
}
