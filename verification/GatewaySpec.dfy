/**
 One gateway worker as a value: rings of pending events, clients with their event tables, and the
 pool.  Each function is one callback of pool.h; None stands for exit(0) on a full ring.

 The timer's sweeps are defined wherever the pool's blocks and the rings agree (BlocksOk), a
 request in sound states (Inv).
 */
module GatewaySpec {
  import opened Sequences
  import opened Words
  import opened Layouts
  import opened Options
  import EventText
  import Pools

  const RING_LEN: nat := 100000
  const MSG_TIMEOUT: int := 30
  const FIN_TIMEOUT: int := 10
  const REQUESTS_PER_PERIOD: nat := 10

  /** sizeof(cli_event) on LP64, and the pool's configured arena and total sizes. */
  const EVENT_SIZE: nat := EventText.EVENT_SIZE
  const POOL_SIZE: nat := 1061670912
  const MAX_SIZE: nat := 2123341824

  /** A cli_event; pack is the pack_id that c_info carries, 0 in msg_queue events. */
  datatype Event = Event(uuid: nat, pack: nat, arrTime: int, msgFlag: bool, finishFlag: bool)

  /** A client_information; table is cli_event_map. */
  datatype Client = Client(count: nat, closeFlag: bool, packId: nat, table: map<nat, Addr>)

  /** A request written to a server: whose, which, and when. */
  datatype Write = Write(client: nat, pack: nat, time: int)

  /**
   msgQ and finQ are the contents of the rings, front first.  sent, writes and replies are history:
   the requests passed on to a server, as (client, pack_id) pairs, each time one was written to a
   server, and the replies passed back.
   */
  datatype Gateway = Gateway(
    pool: Pools.Pool,
    events: map<Addr, Event>,
    clients: map<nat, Client>,
    nextId: nat,
    msgQ: seq<Addr>,
    finQ: seq<Addr>,
    clock: int,
    sent: set<(nat, nat)>,
    writes: seq<Write>,
    replies: seq<(nat, nat)>)

  // ----- what holds in every reachable state

  function Arena(s: Gateway): Layout
    requires |s.pool.arenas| == 1
  {
    s.pool.arenas[0]
  }

  /** The largest chunk an event can be given: its aligned size and an unsplit rest. */
  const EVENT_CHUNK: nat := 1144

  /** The pool is sound, has never grown, and its live blocks are exactly the events. */
  ghost predicate MemOk(s: Gateway) {
    && Pools.PoolInv(s.pool) && s.pool.poolSize == POOL_SIZE && s.pool.max == MAX_SIZE && |s.pool.arenas| == 1
    && |Arena(s).live| == |s.msgQ| + |s.finQ|
    && (forall a {:trigger a in Arena(s).live} | a in Arena(s).live ::
          a in Arena(s).chunks && Arena(s).chunks[a].size <= EVENT_CHUNK)
    && (forall p {:trigger p in s.events} :: p in s.events <==> Pools.LiveIn(Arena(s), p))
  }

  function TimeOf(s: Gateway, p: Addr): int {
    if p in s.events then s.events[p].arrTime else 0
  }

  /** q is sorted by time. */
  ghost predicate InOrder(s: Gateway, q: seq<Addr>) {
    forall i, j {:trigger q[i], q[j]} | 0 <= i < j < |q| :: TimeOf(s, q[i]) <= TimeOf(s, q[j])
  }

  ghost predicate EventOk(s: Gateway, p: Addr)
    requires p in s.events
  {
    && s.events[p].uuid < s.nextId && s.events[p].arrTime <= s.clock
    && (p in s.finQ ==> s.events[p].pack >= 1)
  }

  /** The events are exactly the members of the two rings, each in one ring and once. */
  ghost predicate RingsOk(s: Gateway) {
    && Distinct(s.msgQ) && Distinct(s.finQ)
    && (forall p {:trigger p in s.events} :: p in s.events <==> p in s.msgQ || p in s.finQ)
    && (forall p {:trigger p in s.msgQ, p in s.finQ} :: !(p in s.msgQ && p in s.finQ))
    && |s.msgQ| < RING_LEN && |s.finQ| < RING_LEN
    && InOrder(s, s.msgQ) && InOrder(s, s.finQ)
    && (forall p {:trigger EventOk(s, p)} | p in s.events :: EventOk(s, p))
  }

  /** Entry 0 of a client's table is its current msg_queue event. */
  ghost predicate CurrentOk(s: Gateway, c: nat)
    requires c in s.clients
  {
    && 0 in s.clients[c].table
    && var p := s.clients[c].table[0];
    p in s.msgQ && p in s.events && s.events[p].uuid == c && !s.events[p].msgFlag
  }

  /** Entry k >= 1 is the fin_queue event of the client's unanswered request k. */
  ghost predicate PendingOk(s: Gateway, c: nat, k: nat)
    requires c in s.clients && k in s.clients[c].table
  {
    var p := s.clients[c].table[k];
    && k <= s.clients[c].packId
    && p in s.finQ && p in s.events
    && s.events[p].uuid == c && s.events[p].pack == k && !s.events[p].finishFlag
  }

  ghost predicate ClientsOk(s: Gateway) {
    && (forall c {:trigger CurrentOk(s, c)} | c in s.clients :: c < s.nextId && CurrentOk(s, c))
    && (forall c, k {:trigger PendingOk(s, c, k)} | c in s.clients && k in s.clients[c].table && k != 0 ::
      PendingOk(s, c, k))
  }

  /** Conversely, an unflagged event of a connected client is in the client's table. */
  ghost predicate TabledOk(s: Gateway, p: Addr)
    requires p in s.events
  {
    var e := s.events[p];
    e.uuid in s.clients ==>
      && (p in s.msgQ && !e.msgFlag ==> 0 in s.clients[e.uuid].table && s.clients[e.uuid].table[0] == p)
      && (p in s.finQ && !e.finishFlag ==> e.pack in s.clients[e.uuid].table && s.clients[e.uuid].table[e.pack] == p)
  }

  ghost predicate TablesOk(s: Gateway) {
    forall p {:trigger TabledOk(s, p)} | p in s.events :: TabledOk(s, p)
  }

  /** A connected client's request is in its table exactly while it is unanswered. */
  ghost predicate RequestOk(s: Gateway, c: nat, k: nat)
    requires c in s.clients
  {
    k in s.clients[c].table <==> k <= s.clients[c].packId && (c, k) !in s.replies
  }

  ghost predicate HistoryOk(s: Gateway) {
    && (forall i, j {:trigger s.replies[i], s.replies[j]} | 0 <= i < j < |s.replies| :: s.replies[i] != s.replies[j])
    && (forall c, k {:trigger (c, k) in s.replies} | (c, k) in s.replies :: (c, k) in s.sent)
    && (forall c, k {:trigger (c, k) in s.sent} | (c, k) in s.sent :: c < s.nextId && 1 <= k)
    && (forall c, k {:trigger RequestOk(s, c, k)} | c in s.clients && 1 <= k :: RequestOk(s, c, k))
    && (forall c, k {:trigger SentOk(s, c, k)} | c in s.clients :: SentOk(s, c, k))
  }

  /** The requests of a connected client were passed on with pack_ids 1, 2, ... in order. */
  ghost predicate SentOk(s: Gateway, c: nat, k: nat)
    requires c in s.clients
  {
    (c, k) in s.sent <==> 1 <= k <= s.clients[c].packId
  }

  /** The pool's blocks are the events, and those are the members of the rings; all a sweep relies on. */
  ghost predicate BlocksOk(s: Gateway) {
    MemOk(s) && RingsOk(s)
  }

  lemma InvBlocks(s: Gateway)
    requires Inv(s)
    ensures BlocksOk(s)
  {
  }

  ghost predicate Inv(s: Gateway) {
    MemOk(s) && RingsOk(s) && ClientsOk(s) && TablesOk(s) && HistoryOk(s)
  }

  /** What a callback needs to know before it draws an event. */
  lemma Ready(s: Gateway)
    requires Inv(s)
    ensures MemOk(s) && Pools.PoolInv(s.pool) && |s.msgQ| < RING_LEN && |s.finQ| < RING_LEN
  {
  }

  // ----- events

  /** MemoryPoolAlloc and the assignment of every field; the two flags start out false. */
  ghost function NewEvent(s: Gateway, e: Event): (Gateway, Addr)
    requires Pools.PoolInv(s.pool)
  {
    var (pool, p) := Pools.Alloc(s.pool, EVENT_SIZE, NULL);
    (s.(pool := pool, events := s.events[p := e]), p)
  }

  ghost function FreeEvent(s: Gateway, p: Addr): Gateway
    requires Pools.PoolInv(s.pool) && Pools.IsLive(s.pool, p)
  {
    s.(pool := Pools.Free(s.pool, p), events := s.events - {p})
  }

  /**
   The pool cannot run out: with both rings not full, the first arena has a fitting chunk, so no
   allocation fails and the pool never grows, whatever the system's malloc would grant.
   */
  lemma EventFits(s: Gateway, grant: Addr)
    requires MemOk(s) && |s.msgQ| < RING_LEN && |s.finQ| < RING_LEN
    ensures Pools.AlignSize(EVENT_SIZE) == 1104
    ensures HasFit(Arena(s), 1104)
    ensures Pools.Alloc(s.pool, EVENT_SIZE, grant) == Pools.Place(s.pool, 0, 1104)
    ensures Pools.Alloc(s.pool, EVENT_SIZE, grant).1 != NULL
    ensures |Pools.Alloc(s.pool, EVENT_SIZE, grant).0.arenas| == 1
  {
    assert Pools.ArenaOk(s.pool, Arena(s));
    assert Pools.AlignSize(1056) == 1104;
    RoomyHasFit(Arena(s), 1104, 199998, EVENT_CHUNK);
    assert Pools.FindArena(s.pool.arenas, 1104) == 0;
  }

  /** MemOk speaks of the pool, of which addresses are events, and of how many there are. */
  lemma MemSame(s: Gateway, t: Gateway)
    requires MemOk(s) && t.pool == s.pool && t.events.Keys == s.events.Keys
    requires |t.msgQ| + |t.finQ| == |s.msgQ| + |s.finQ|
    ensures MemOk(t)
  {
    forall p ensures p in t.events <==> Pools.LiveIn(Arena(t), p) {
      assert p in s.events <==> p in t.events.Keys;
    }
  }

  lemma NewEventMem(s: Gateway, e: Event, t: Gateway)
    requires MemOk(s) && |s.msgQ| < RING_LEN && |s.finQ| < RING_LEN
    requires t.pool == NewEvent(s, e).0.pool && t.events.Keys == NewEvent(s, e).0.events.Keys
    requires |t.msgQ| + |t.finQ| == |s.msgQ| + |s.finQ| + 1
    ensures NewEvent(s, e).1 !in s.events
    ensures MemOk(t)
  {
    var p := NewEvent(s, e).1;
    NewEventPool(s, e);
    hide NewEvent, Pools.PoolInv;
    assert t.events.Keys == s.events.Keys + {p};
    MemGrown(s, t, p);
  }

  /** One more chunk, one more event. */
  lemma MemGrown(s: Gateway, t: Gateway, p: Addr)
    requires MemOk(s) && Pools.PoolInv(t.pool) && t.pool.poolSize == POOL_SIZE && t.pool.max == MAX_SIZE
    requires |t.pool.arenas| == 1 && |t.msgQ| + |t.finQ| == |s.msgQ| + |s.finQ| + 1
    requires HEADER <= p && Arena(t).live == [p - HEADER] + Arena(s).live
    requires p - HEADER in Arena(t).chunks && Arena(t).chunks[p - HEADER].size <= EVENT_CHUNK
    requires forall a {:trigger a in Arena(s).live} | a in Arena(s).live ::
      a in Arena(s).chunks && a in Arena(t).chunks && Arena(t).chunks[a] == Arena(s).chunks[a]
    requires t.events.Keys == s.events.Keys + {p}
    ensures MemOk(t)
  {
    hide Pools.PoolInv;
    forall q: Addr ensures q in t.events <==> Pools.LiveIn(Arena(t), q) {
      assert q in t.events.Keys <==> q == p || q in s.events;
      LiveGrown(Arena(s), Arena(t), p, q);
    }
    hide Pools.LiveIn;
    forall a | a in Arena(t).live ensures a in Arena(t).chunks && Arena(t).chunks[a].size <= EVENT_CHUNK {
      assert a == p - HEADER || a in Arena(s).live;
    }
  }

  lemma LiveGrown(l: Layout, m: Layout, p: Addr, q: Addr)
    requires HEADER <= p && m.live == [p - HEADER] + l.live
    ensures Pools.LiveIn(m, q) <==> q == p || Pools.LiveIn(l, q)
  {
    assert HEADER <= q ==> (q - HEADER in m.live <==> q - HEADER == p - HEADER || q - HEADER in l.live);
  }

  /** What drawing an event does to the pool: one chunk of at most EVENT_CHUNK bytes joins the alloc list. */
  lemma NewEventPool(s: Gateway, e: Event)
    requires MemOk(s) && |s.msgQ| < RING_LEN && |s.finQ| < RING_LEN
    ensures NewEvent(s, e).0.events == s.events[NewEvent(s, e).1 := e]
    ensures var pool, p := NewEvent(s, e).0.pool, NewEvent(s, e).1;
      && Pools.PoolInv(pool) && pool.poolSize == POOL_SIZE && pool.max == MAX_SIZE && |pool.arenas| == 1
      && HEADER <= p && p - HEADER !in Arena(s).live
      && var l, m := Arena(s), pool.arenas[0];
      && m.live == [p - HEADER] + l.live
      && p - HEADER in m.chunks && 1104 <= m.chunks[p - HEADER].size <= EVENT_CHUNK
      && (forall a {:trigger a in l.live} | a in l.live :: a in l.chunks && a in m.chunks && m.chunks[a] == l.chunks[a])
  {
    EventFits(s, NULL);
    var l, f := Arena(s), FirstFit(Arena(s), 1104);
    assert Pools.ArenaOk(s.pool, l);
    TakeSound(l, f, 1104);
    Pools.Replaced(s.pool, 0, Take(l, f, 1104));
  }

  lemma EventLive(s: Gateway, p: Addr)
    requires MemOk(s) && p in s.events
    ensures Pools.IsLive(s.pool, p) && Pools.ArenaOf(s.pool, p) == 0 && p - HEADER in Arena(s).live
  {
    assert Pools.LiveIn(Arena(s), p);
    Pools.ArenaOfBlock(s.pool, p, 0);
  }

  lemma FreeEventMem(s: Gateway, p: Addr, t: Gateway)
    requires MemOk(s) && p in s.events && Pools.IsLive(s.pool, p)
    requires t.pool == FreeEvent(s, p).pool && t.events.Keys == s.events.Keys - {p}
    requires |t.msgQ| + |t.finQ| + 1 == |s.msgQ| + |s.finQ|
    ensures MemOk(t)
  {
    EventLive(s, p);
    var l, a := Arena(s), p - HEADER;
    assert Pools.ArenaOk(s.pool, l);
    ReleaseMembers(l, a);
    Pools.Replaced(s.pool, 0, Release(l, a));
    assert Arena(t) == Release(l, a);
    forall q: Addr ensures q in t.events <==> Pools.LiveIn(Arena(t), q) {
      assert q in t.events.Keys <==> q != p && q in s.events;
      assert HEADER <= q ==> (q - HEADER in Arena(t).live <==> q != p && q - HEADER in l.live);
    }
    forall b | b in Arena(t).live ensures b in Arena(t).chunks && Arena(t).chunks[b].size <= EVENT_CHUNK {
      assert b in l.live && b != a;
    }
  }

  lemma PushMembers(q: seq<Addr>, x: Addr)
    requires Distinct(q) && x !in q
    ensures Distinct(q + [x]) && |q + [x]| == |q| + 1
    ensures forall y {:trigger y in q + [x]} :: y in q + [x] <==> y in q || y == x
  {
  }

  lemma PopMembers(q: seq<Addr>)
    requires Distinct(q) && q != []
    ensures Distinct(q[1..]) && |q[1..]| + 1 == |q| && q[0] in q
    ensures forall y {:trigger y in q[1..]} :: y in q[1..] <==> y in q && y != q[0]
  {
    assert q == [q[0]] + q[1..];
    assert RemoveAt(q, 0) == q[1..];
    RemoveAtMembers(q, 0);
  }

  // ----- connect

  /** pipe_event_CallBack, case 1, once the new client passed the blacklist. */
  ghost function Connect(s: Gateway, now: int): Option<Gateway>
    requires Pools.PoolInv(s.pool)
  {
    var (s1, p) := NewEvent(s, Event(s.nextId, 0, now, false, false));
    if |s.msgQ| + 1 == RING_LEN then None else
      Some(s1.(msgQ := s.msgQ + [p],
               clients := s.clients[s.nextId := Client(0, false, 0, map[0 := p])],
               nextId := s.nextId + 1,
               clock := now))
  }

  lemma ConnectSound(s: Gateway, now: int)
    requires Inv(s) && now >= s.clock && Connect(s, now).Some?
    ensures Inv(Connect(s, now).value)
  {
    var e := Event(s.nextId, 0, now, false, false);
    var t, p := Connect(s, now).value, NewEvent(s, e).1;
    NewEventMem(s, e, t);
    PushRings(s, t, p, e);
    ConnectTables(s, t, p, e);
    ConnectHistory(s, t, p);
  }

  lemma ConnectTables(s: Gateway, t: Gateway, p: Addr, e: Event)
    requires RingsOk(s) && ClientsOk(s) && TablesOk(s) && p !in s.events
    requires t.events == s.events[p := e] && e.uuid == s.nextId && !e.msgFlag
    requires t.msgQ == s.msgQ + [p] && t.finQ == s.finQ && t.nextId == s.nextId + 1
    requires t.clients == s.clients[s.nextId := Client(0, false, 0, map[0 := p])]
    ensures ClientsOk(t) && TablesOk(t)
  {
    forall c | c in t.clients ensures c < t.nextId && CurrentOk(t, c) {
      assert c != s.nextId ==> CurrentOk(s, c);
    }
    forall c, k | c in t.clients && k in t.clients[c].table && k != 0 ensures PendingOk(t, c, k) {
      assert PendingOk(s, c, k);
    }
    forall q | q in t.events ensures TabledOk(t, q) {
      assert q != p ==> TabledOk(s, q) && EventOk(s, q);
    }
  }

  lemma ConnectHistory(s: Gateway, t: Gateway, p: Addr)
    requires ClientsOk(s) && HistoryOk(s) && t.sent == s.sent && t.replies == s.replies
    requires t.clients == s.clients[s.nextId := Client(0, false, 0, map[0 := p])] && t.nextId == s.nextId + 1
    ensures HistoryOk(t)
  {
    forall c, k | c in t.clients && 1 <= k ensures RequestOk(t, c, k) {
      assert c != s.nextId ==> RequestOk(s, c, k);
    }
    forall c, k: nat | c in t.clients ensures SentOk(t, c, k) {
      assert c != s.nextId ==> SentOk(s, c, k);
      assert (c, k) in s.sent ==> c < s.nextId;
    }
  }

  /** Appending a new event to msg_queue keeps the rings as they must be. */
  lemma PushRings(s: Gateway, t: Gateway, p: Addr, e: Event)
    requires RingsOk(s) && p !in s.events && t.events == s.events[p := e]
    requires t.msgQ == s.msgQ + [p] && t.finQ == s.finQ && |t.msgQ| < RING_LEN
    requires t.nextId >= s.nextId && t.clock >= s.clock
    requires e.uuid < t.nextId && s.clock <= e.arrTime <= t.clock
    ensures RingsOk(t)
  {
    PushMembers(s.msgQ, p);
    forall i, j | 0 <= i < j < |t.msgQ| ensures TimeOf(t, t.msgQ[i]) <= TimeOf(t, t.msgQ[j]) {
      assert t.msgQ[i] in s.msgQ && EventOk(s, s.msgQ[i]);
      assert j < |s.msgQ| ==> t.msgQ[j] in s.msgQ;
    }
    forall i, j | 0 <= i < j < |t.finQ| ensures TimeOf(t, t.finQ[i]) <= TimeOf(t, t.finQ[j]) {
      assert t.finQ[i] in s.finQ && t.finQ[j] in s.finQ;
    }
    forall q | q in t.events ensures EventOk(t, q) {
      assert q != p ==> EventOk(s, q);
    }
  }

  // ----- request

  /** The arrival record (lines 663-677): a fresh current event; the old one is flagged as superseded. */
  ghost function AcceptMsg(s: Gateway, c: nat, now: int): Option<Gateway>
    requires Pools.PoolInv(s.pool) && c in s.clients && 0 in s.clients[c].table && s.clients[c].table[0] in s.events
  {
    var cl := s.clients[c];
    var current := cl.table[0];
    var s0 := s.(events := s.events[current := s.events[current].(msgFlag := true)]);
    var (s1, p) := NewEvent(s0, Event(c, 0, now, false, false));
    if |s.msgQ| + 1 == RING_LEN then None else
      Some(s1.(msgQ := s.msgQ + [p], clients := s.clients[c := cl.(table := cl.table[0 := p])], clock := now))
  }

  /** The copy of a request's text leaves its event's finish flag clear. */
  predicate KeepsFlag(len: nat) {
    !EventText.Covers(len, EventText.FINISH_FLAG)
  }

  /** The event of a request with a text of len bytes; strcpy may run over its flags. */
  function RequestEvent(c: nat, k: nat, now: int, len: nat): Event {
    Event(c, k, now, EventText.Covers(len, EventText.MSG_FLAG), !KeepsFlag(len))
  }

  /**
   The request record (lines 647 and 679-690): an event to resend until it is answered.  len is the
   length of the text that goes to the server; beyond 1047 the copy leaves the event's block.
   */
  ghost function AcceptFin(s: Gateway, c: nat, now: int, len: nat): Option<Gateway>
    requires Pools.PoolInv(s.pool) && c in s.clients
  {
    var cl := s.clients[c];
    var k := cl.packId + 1;
    var (s1, p) := NewEvent(s, RequestEvent(c, k, now, len));
    var table := if k in cl.table then cl.table else cl.table[k := p];
    if |s.finQ| + 1 == RING_LEN then None else
      Some(s1.(finQ := s.finQ + [p],
               clients := s.clients[c := cl.(packId := k, table := table)],
               sent := s.sent + {(c, k)},
               writes := s.writes + [Write(c, k, now)],
               clock := now))
  }

  /** client_socket_read_cb for one complete message. */
  ghost function Request(s: Gateway, c: nat, now: int, len: nat): (t: Option<Gateway>)
    requires Inv(s) && c in s.clients && now >= s.clock
    ensures t.Some? ==> BlocksOk(t.value)
  {
    var cl := s.clients[c];
    if cl.closeFlag then
      Some(s)
    else if cl.count < REQUESTS_PER_PERIOD then
      var s0 := Counted(s, c, false);
      CountedSound(s, c, false);
      assert CurrentOk(s0, c);
      match AcceptMsg(s0, c, now)
      case None => None
      case Some(s1) =>
        AcceptMsgSound(s0, c, now);
        AcceptFinReady(s1, c, now, len);
        AcceptFin(s1, c, now, len)
    else
      CountedSound(s, c, true);
      Some(Counted(s, c, true))
  }

  function Counted(s: Gateway, c: nat, close: bool): Gateway
    requires c in s.clients
  {
    var cl := s.clients[c];
    s.(clients := s.clients[c := cl.(count := cl.count + 1, closeFlag := close)])
  }

  /** Counters and the close flag have no part in the invariant. */
  lemma CountedSound(s: Gateway, c: nat, close: bool)
    requires Inv(s) && c in s.clients
    ensures Inv(Counted(s, c, close))
  {
    SameTables(s, Counted(s, c, close));
  }

  lemma SameTables(s: Gateway, t: Gateway)
    requires Inv(s) && t == s.(clients := t.clients) && t.clients.Keys <= s.clients.Keys
    requires forall c | c in t.clients ::
      t.clients[c].table == s.clients[c].table && t.clients[c].packId == s.clients[c].packId
    ensures Inv(t)
  {
    MemSame(s, t);
    forall p | p in t.events ensures EventOk(t, p) && TabledOk(t, p) {
      assert EventOk(s, p) && TabledOk(s, p);
    }
    forall c | c in t.clients ensures c < t.nextId && CurrentOk(t, c) {
      assert c in s.clients.Keys && CurrentOk(s, c);
    }
    forall c, k | c in t.clients && k in t.clients[c].table && k != 0 ensures PendingOk(t, c, k) {
      assert c in s.clients.Keys && PendingOk(s, c, k);
    }
    forall c, k | c in t.clients && 1 <= k ensures RequestOk(t, c, k) {
      assert c in s.clients.Keys && RequestOk(s, c, k);
    }
    forall c, k: nat | c in t.clients ensures SentOk(t, c, k) {
      assert c in s.clients.Keys && SentOk(s, c, k);
    }
  }

  lemma AcceptMsgIs(s: Gateway, c: nat, now: int)
    requires Pools.PoolInv(s.pool) && c in s.clients
    requires 0 in s.clients[c].table && s.clients[c].table[0] in s.events
    ensures AcceptMsg(s, c, now).None? <==> |s.msgQ| + 1 == RING_LEN
    ensures AcceptMsg(s, c, now).Some? ==>
      var current := s.clients[c].table[0];
      var s0 := s.(events := s.events[current := s.events[current].(msgFlag := true)]);
      var s1, p := NewEvent(s0, Event(c, 0, now, false, false)).0, NewEvent(s0, Event(c, 0, now, false, false)).1;
      && s1 == s0.(pool := s1.pool, events := s1.events)
      && AcceptMsg(s, c, now).value == s1.(
           msgQ := s.msgQ + [p], clock := now,
           clients := s.clients[c := s.clients[c].(table := s.clients[c].table[0 := p])])
  {
  }

  lemma AcceptMsgSound(s: Gateway, c: nat, now: int)
    requires Inv(s) && c in s.clients && now >= s.clock
    requires 0 in s.clients[c].table && s.clients[c].table[0] in s.events && AcceptMsg(s, c, now).Some?
    ensures Inv(AcceptMsg(s, c, now).value) && c in AcceptMsg(s, c, now).value.clients
  {
    var e, current := Event(c, 0, now, false, false), s.clients[c].table[0];
    var s0 := s.(events := s.events[current := s.events[current].(msgFlag := true)]);
    var t, p := AcceptMsg(s, c, now).value, NewEvent(s0, e).1;
    MemSame(s, s0);
    NewEventMem(s0, e, t);
    assert CurrentOk(s, c);
    FlaggedRings(s, s0, current);
    PushRings(s0, t, p, e);
    AcceptMsgTables(s, t, c, p, e);
    AcceptMsgHistory(s, t, c, p);
  }

  /** Changing only flags leaves the rings as they must be. */
  lemma FlaggedRings(s: Gateway, t: Gateway, p: Addr)
    requires RingsOk(s) && p in s.events && t == s.(events := t.events, clients := t.clients, replies := t.replies)
    requires t.events.Keys == s.events.Keys && forall q | q in s.events :: t.events[q] == s.events[q] || q == p
    requires t.events[p].uuid == s.events[p].uuid && t.events[p].arrTime == s.events[p].arrTime
      && t.events[p].pack == s.events[p].pack
    ensures RingsOk(t)
  {
    forall q ensures q in t.events <==> q in t.msgQ || q in t.finQ {
      assert q in t.events.Keys <==> q in s.events;
    }
    forall q | q in t.events ensures EventOk(t, q) {
      assert q in s.events.Keys && EventOk(s, q);
    }
    forall q ensures TimeOf(t, q) == TimeOf(s, q) {
      assert q in t.events.Keys <==> q in s.events;
    }
  }

  lemma AcceptMsgTables(s: Gateway, t: Gateway, c: nat, p: Addr, e: Event)
    requires RingsOk(s) && ClientsOk(s) && TablesOk(s) && p !in s.events && c in s.clients
    requires CurrentOk(s, c) && e.uuid == c && !e.msgFlag
    requires var current := s.clients[c].table[0];
      t.events == s.events[current := s.events[current].(msgFlag := true)][p := e]
    requires t.msgQ == s.msgQ + [p] && t.finQ == s.finQ && t.nextId == s.nextId
    requires t.clients == s.clients[c := s.clients[c].(table := s.clients[c].table[0 := p])]
    ensures ClientsOk(t) && TablesOk(t)
  {
    var current := s.clients[c].table[0];
    forall d | d in t.clients ensures d < t.nextId && CurrentOk(t, d) {
      assert CurrentOk(s, d);
    }
    forall d, k | d in t.clients && k in t.clients[d].table && k != 0 ensures PendingOk(t, d, k) {
      assert PendingOk(s, d, k);
      assert s.clients[d].table[k] in s.finQ && current in s.msgQ;
    }
    forall q | q in t.events ensures TabledOk(t, q) {
      if q != p {
        assert TabledOk(s, q);
        assert q in t.finQ ==> q != current;
      }
    }
  }

  lemma AcceptMsgHistory(s: Gateway, t: Gateway, c: nat, p: Addr)
    requires HistoryOk(s) && c in s.clients && t.sent == s.sent && t.replies == s.replies && t.nextId == s.nextId
    requires t.clients == s.clients[c := s.clients[c].(table := s.clients[c].table[0 := p])]
    ensures HistoryOk(t)
  {
    forall d, k | d in t.clients && 1 <= k ensures RequestOk(t, d, k) {
      assert RequestOk(s, d, k);
    }
    forall d, k: nat | d in t.clients ensures SentOk(t, d, k) {
      assert SentOk(s, d, k);
    }
  }

  lemma AcceptFinIs(s: Gateway, c: nat, now: int, len: nat)
    requires Pools.PoolInv(s.pool) && c in s.clients && s.clients[c].packId + 1 !in s.clients[c].table
    ensures AcceptFin(s, c, now, len).None? <==> |s.finQ| + 1 == RING_LEN
    ensures AcceptFin(s, c, now, len).Some? ==>
      var k := s.clients[c].packId + 1;
      var e := RequestEvent(c, k, now, len);
      var s1, p := NewEvent(s, e).0, NewEvent(s, e).1;
      && s1.events == s.events[p := e] && s1 == s.(pool := s1.pool, events := s1.events)
      && AcceptFin(s, c, now, len).value == s1.(
           finQ := s.finQ + [p], sent := s.sent + {(c, k)}, writes := s.writes + [Write(c, k, now)], clock := now,
           clients := s.clients[c := s.clients[c].(packId := k, table := s.clients[c].table[k := p])])
  {
  }

  lemma AcceptFinSound(s: Gateway, c: nat, now: int, len: nat)
    requires Inv(s) && c in s.clients && now >= s.clock && AcceptFin(s, c, now, len).Some? && KeepsFlag(len)
    ensures Inv(AcceptFin(s, c, now, len).value)
  {
    var k := s.clients[c].packId + 1;
    var e := RequestEvent(c, k, now, len);
    var t, p := AcceptFin(s, c, now, len).value, NewEvent(s, e).1;
    NextPackFree(s, c);
    Ready(s);
    hide MemOk, RingsOk, ClientsOk, TablesOk, HistoryOk, Pools.PoolInv, NewEvent;
    AcceptFinIs(s, c, now, len);
    assert t.clients == s.clients[c := s.clients[c].(packId := k, table := s.clients[c].table[k := p])];
    NewEventMem(s, e, t);
    PushFinRings(s, t, p, e);
    AcceptFinTables(s, t, c, p, e);
    AcceptFinHistory(s, t, c, p);
  }

  lemma NextPackFree(s: Gateway, c: nat)
    requires HistoryOk(s) && ClientsOk(s) && c in s.clients
    ensures s.clients[c].packId + 1 !in s.clients[c].table && c < s.nextId
  {
    assert CurrentOk(s, c);
    assert RequestOk(s, c, s.clients[c].packId + 1);
  }

  lemma AcceptMsgReady(s: Gateway, c: nat, now: int)
    requires Inv(s) && c in s.clients && now >= s.clock
    requires 0 in s.clients[c].table && s.clients[c].table[0] in s.events
    ensures AcceptMsg(s, c, now).Some? ==> Inv(AcceptMsg(s, c, now).value)
  {
    if AcceptMsg(s, c, now).Some? {
      AcceptMsgSound(s, c, now);
    }
  }

  lemma AcceptFinReady(s: Gateway, c: nat, now: int, len: nat)
    requires Inv(s) && c in s.clients && now >= s.clock
    ensures AcceptFin(s, c, now, len).Some? ==>
      BlocksOk(AcceptFin(s, c, now, len).value) && (KeepsFlag(len) ==> Inv(AcceptFin(s, c, now, len).value))
  {
    if AcceptFin(s, c, now, len).Some? {
      AcceptFinBlocks(s, c, now, len);
      if KeepsFlag(len) {
        AcceptFinSound(s, c, now, len);
      }
    }
  }

  /** Whatever its text does to its flags, the request's event is a block of the pool and in the ring. */
  lemma AcceptFinBlocks(s: Gateway, c: nat, now: int, len: nat)
    requires Inv(s) && c in s.clients && now >= s.clock && AcceptFin(s, c, now, len).Some?
    ensures BlocksOk(AcceptFin(s, c, now, len).value)
  {
    var e := RequestEvent(c, s.clients[c].packId + 1, now, len);
    var t, p := AcceptFin(s, c, now, len).value, NewEvent(s, e).1;
    NextPackFree(s, c);
    Ready(s);
    hide MemOk, RingsOk, ClientsOk, TablesOk, HistoryOk, Pools.PoolInv, NewEvent;
    AcceptFinIs(s, c, now, len);
    NewEventMem(s, e, t);
    PushFinRings(s, t, p, e);
  }

  lemma NextPackIsFree(s: Gateway, c: nat)
    requires Inv(s) && c in s.clients
    ensures s.clients[c].packId + 1 !in s.clients[c].table
  {
    NextPackFree(s, c);
  }

  /** Appending a new event to fin_queue keeps the rings as they must be. */
  lemma PushFinRings(s: Gateway, t: Gateway, p: Addr, e: Event)
    requires RingsOk(s) && p !in s.events && t.events == s.events[p := e]
    requires t.finQ == s.finQ + [p] && t.msgQ == s.msgQ && |t.finQ| < RING_LEN
    requires t.nextId == s.nextId && t.clock >= s.clock
    requires e.uuid < t.nextId && s.clock <= e.arrTime <= t.clock && e.pack >= 1
    ensures RingsOk(t)
  {
    PushMembers(s.finQ, p);
    forall i, j | 0 <= i < j < |t.finQ| ensures TimeOf(t, t.finQ[i]) <= TimeOf(t, t.finQ[j]) {
      assert t.finQ[i] in s.finQ && EventOk(s, s.finQ[i]);
      assert j < |s.finQ| ==> t.finQ[j] in s.finQ;
    }
    forall i, j | 0 <= i < j < |t.msgQ| ensures TimeOf(t, t.msgQ[i]) <= TimeOf(t, t.msgQ[j]) {
      assert t.msgQ[i] in s.msgQ && t.msgQ[j] in s.msgQ;
    }
    forall q | q in t.events ensures EventOk(t, q) {
      assert q != p ==> EventOk(s, q);
    }
  }

  lemma AcceptFinTables(s: Gateway, t: Gateway, c: nat, p: Addr, e: Event)
    requires RingsOk(s) && ClientsOk(s) && TablesOk(s) && p !in s.events && c in s.clients
    requires var k := s.clients[c].packId + 1;
      && e.uuid == c && e.pack == k && !e.finishFlag && k !in s.clients[c].table
      && t.clients == s.clients[c := s.clients[c].(packId := k, table := s.clients[c].table[k := p])]
    requires t.events == s.events[p := e] && t.finQ == s.finQ + [p] && t.msgQ == s.msgQ && t.nextId == s.nextId
    ensures ClientsOk(t) && TablesOk(t)
  {
    forall d | d in t.clients ensures d < t.nextId && CurrentOk(t, d) {
      assert CurrentOk(s, d);
    }
    forall d, j | d in t.clients && j in t.clients[d].table && j != 0 ensures PendingOk(t, d, j) {
      assert t.clients[d].table[j] != p ==> PendingOk(s, d, j);
      assert j in s.clients[d].table ==> PendingOk(s, d, j);
    }
    forall q | q in t.events ensures TabledOk(t, q) {
      assert q != p ==> TabledOk(s, q);
    }
  }

  lemma AcceptFinHistory(s: Gateway, t: Gateway, c: nat, p: Addr)
    requires HistoryOk(s) && ClientsOk(s) && c in s.clients && t.replies == s.replies && t.nextId == s.nextId
    requires var k := s.clients[c].packId + 1;
      && t.sent == s.sent + {(c, k)}
      && t.clients == s.clients[c := s.clients[c].(packId := k, table := s.clients[c].table[k := p])]
    ensures HistoryOk(t)
  {
    var k := s.clients[c].packId + 1;
    assert SentOk(s, c, k) && CurrentOk(s, c);
    forall d, j | d in t.clients && 1 <= j ensures RequestOk(t, d, j) {
      assert RequestOk(s, d, j);
      assert (c, k) in s.replies ==> (c, k) in s.sent;
    }
    forall d, j: nat | d in t.clients ensures SentOk(t, d, j) {
      assert SentOk(s, d, j);
    }
  }

  lemma CurrentKnown(s: Gateway, c: nat)
    requires Inv(s) && c in s.clients
    ensures 0 in s.clients[c].table && s.clients[c].table[0] in s.events
  {
    assert CurrentOk(s, c);
  }

  /** A request that passes the limiter is the arrival record followed by the request record. */
  lemma RequestStages(s: Gateway, c: nat, now: int, len: nat)
    requires Inv(s) && c in s.clients && now >= s.clock
    ensures s.clients[c].closeFlag ==> Request(s, c, now, len) == Some(s)
    ensures !s.clients[c].closeFlag && s.clients[c].count >= REQUESTS_PER_PERIOD ==>
      Request(s, c, now, len) == Some(Counted(s, c, true))
    ensures !s.clients[c].closeFlag && s.clients[c].count < REQUESTS_PER_PERIOD ==>
      var s0 := Counted(s, c, false);
      && Inv(s0) && 0 in s0.clients[c].table && s0.clients[c].table[0] in s0.events
      && (AcceptMsg(s0, c, now).None? ==> Request(s, c, now, len).None?)
      && (AcceptMsg(s0, c, now).Some? ==>
            var s1 := AcceptMsg(s0, c, now).value;
            Inv(s1) && c in s1.clients && Request(s, c, now, len) == AcceptFin(s1, c, now, len))
  {
    var s0 := Counted(s, c, false);
    CountedSound(s, c, false);
    CurrentKnown(s0, c);
    if AcceptMsg(s0, c, now).Some? {
      AcceptMsgSound(s0, c, now);
    }
  }

  /** Drawing an event leaves the pool's arena where it is, so a grant stays legal. */
  lemma StillLegal(s: Gateway, e: Event, grant: Addr)
    requires MemOk(s) && |s.msgQ| < RING_LEN && |s.finQ| < RING_LEN && Pools.GrantOk(s.pool, grant)
    ensures Pools.GrantOk(NewEvent(s, e).0.pool, grant)
  {
    EventFits(s, NULL);
    assert s.pool.arenas[0] == Arena(s);
    TakeSound(Arena(s), FirstFit(Arena(s), 1104), 1104);
  }

  lemma AcceptMsgLegal(s: Gateway, c: nat, now: int, grant: Addr)
    requires Inv(s) && c in s.clients && 0 in s.clients[c].table && s.clients[c].table[0] in s.events
    requires Pools.GrantOk(s.pool, grant) && AcceptMsg(s, c, now).Some?
    ensures Pools.GrantOk(AcceptMsg(s, c, now).value.pool, grant)
  {
    var current := s.clients[c].table[0];
    var s0 := s.(events := s.events[current := s.events[current].(msgFlag := true)]);
    MemSame(s, s0);
    StillLegal(s0, Event(c, 0, now, false, false), grant);
  }

  lemma RequestSound(s: Gateway, c: nat, now: int, len: nat)
    requires Inv(s) && c in s.clients && now >= s.clock && Request(s, c, now, len).Some? && KeepsFlag(len)
    ensures Inv(Request(s, c, now, len).value)
  {
    var cl := s.clients[c];
    if !cl.closeFlag && cl.count < REQUESTS_PER_PERIOD {
      CountedSound(s, c, false);
      var s0 := Counted(s, c, false);
      assert CurrentOk(s0, c);
      AcceptMsgSound(s0, c, now);
      AcceptFinSound(AcceptMsg(s0, c, now).value, c, now, len);
    } else {
      CountedSound(s, c, true);
    }
  }

  // ----- reply

  /**
   work_server_socket_read_cb for one message: forwarded, and the request settled, only while its
   client is connected and the request is in the client's table.
   */
  function Reply(s: Gateway, c: nat, k: nat): Gateway {
    if c in s.clients && k in s.clients[c].table && s.clients[c].table[k] in s.events then
      var cl := s.clients[c];
      var p := cl.table[k];
      s.(events := s.events[p := s.events[p].(finishFlag := true)],
         clients := s.clients[c := cl.(table := cl.table - {k})],
         replies := s.replies + [(c, k)])
    else
      s
  }

  /** Servers answer requests that were passed on to them; they may repeat themselves. */
  lemma ReplySound(s: Gateway, c: nat, k: nat)
    requires Inv(s) && (c, k) in s.sent
    ensures Inv(Reply(s, c, k))
    ensures Reply(s, c, k).replies == if c in s.clients && (c, k) !in s.replies then s.replies + [(c, k)] else s.replies
  {
    assert 1 <= k;
    if c in s.clients {
      assert SentOk(s, c, k) && RequestOk(s, c, k);
      if k in s.clients[c].table {
        assert PendingOk(s, c, k);
        var t := Reply(s, c, k);
        MemSame(s, t);
        FlaggedRings(s, t, s.clients[c].table[k]);
        ReplyTables(s, t, c, k);
        ReplyHistory(s, t, c, k);
      }
    }
  }

  lemma TableEntryLive(s: Gateway, c: nat, k: nat)
    requires Inv(s) && c in s.clients && k in s.clients[c].table
    ensures s.clients[c].table[k] in s.events
  {
    assert CurrentOk(s, c) && (k != 0 ==> PendingOk(s, c, k));
  }

  lemma ReplyKnown(s: Gateway, c: nat, k: nat)
    requires Inv(s) && (c, k) in s.sent
    ensures c in s.clients ==> (k in s.clients[c].table <==> (c, k) !in s.replies)
    ensures c in s.clients && k in s.clients[c].table ==> s.clients[c].table[k] in s.events
  {
    if c in s.clients {
      assert SentOk(s, c, k) && RequestOk(s, c, k);
    }
    if c in s.clients && k in s.clients[c].table {
      TableEntryLive(s, c, k);
    }
  }

  lemma ReplyTables(s: Gateway, t: Gateway, c: nat, k: nat)
    requires RingsOk(s) && ClientsOk(s) && TablesOk(s)
    requires c in s.clients && k in s.clients[c].table && k != 0 && t == Reply(s, c, k)
    ensures ClientsOk(t) && TablesOk(t)
  {
    assert PendingOk(s, c, k);
    var p := s.clients[c].table[k];
    forall d | d in t.clients ensures d < t.nextId && CurrentOk(t, d) {
      assert CurrentOk(s, d);
      assert s.clients[d].table[0] in s.msgQ && p in s.finQ;
    }
    forall d, j | d in t.clients && j in t.clients[d].table && j != 0 ensures PendingOk(t, d, j) {
      assert PendingOk(s, d, j);
    }
    forall q | q in t.events ensures TabledOk(t, q) {
      assert TabledOk(s, q) && EventOk(s, q);
    }
  }

  lemma ReplyHistory(s: Gateway, t: Gateway, c: nat, k: nat)
    requires HistoryOk(s) && ClientsOk(s) && c in s.clients && k in s.clients[c].table && 1 <= k && (c, k) in s.sent
    requires t == Reply(s, c, k) && t.clients == s.clients[c := s.clients[c].(table := s.clients[c].table - {k})]
    requires t.replies == s.replies + [(c, k)] && t.sent == s.sent
    ensures HistoryOk(t)
  {
    assert RequestOk(s, c, k);
    forall d, j | d in t.clients && 1 <= j ensures RequestOk(t, d, j) {
      assert RequestOk(s, d, j);
      assert (d, j) in t.replies <==> (d, j) == (c, k) || (d, j) in s.replies;
    }
    forall d, j | (d, j) in t.replies ensures (d, j) in t.sent {
      assert (d, j) == (c, k) || (d, j) in s.replies;
    }
    forall d, j: nat | d in t.clients ensures SentOk(t, d, j) {
      assert SentOk(s, d, j);
    }
  }

  // ----- disconnect and the rate limiter's period

  /** client_event_cb. */
  function Disconnect(s: Gateway, c: nat): Gateway {
    s.(clients := s.clients - {c})
  }

  lemma DisconnectSound(s: Gateway, c: nat)
    requires Inv(s)
    ensures Inv(Disconnect(s, c))
  {
    SameTables(s, Disconnect(s, c));
  }

  /** empty_count_cb: clients flagged for closing go, the others may send again. */
  function EmptyCount(s: Gateway): Gateway {
    s.(clients := map c | c in s.clients && !s.clients[c].closeFlag :: s.clients[c].(count := 0))
  }

  lemma EmptyCountSound(s: Gateway)
    requires Inv(s)
    ensures Inv(EmptyCount(s))
  {
    SameTables(s, EmptyCount(s));
  }

  // ----- the timer: idle clients

  ghost function PopMsg(s: Gateway): Gateway
    requires MemOk(s) && s.msgQ != [] && s.msgQ[0] in s.events
  {
    EventLive(s, s.msgQ[0]);
    FreeEvent(s, s.msgQ[0]).(msgQ := s.msgQ[1..])
  }

  ghost function PopFin(s: Gateway): Gateway
    requires MemOk(s) && s.finQ != [] && s.finQ[0] in s.events
  {
    EventLive(s, s.finQ[0]);
    FreeEvent(s, s.finQ[0]).(finQ := s.finQ[1..])
  }

  /** Freeing the front event and taking it off its ring keeps blocks and rings in step. */
  lemma PopMsgBlocks(s: Gateway)
    requires BlocksOk(s) && s.msgQ != []
    ensures s.msgQ[0] in s.events && BlocksOk(PopMsg(s)) && |PopMsg(s).msgQ| < |s.msgQ|
  {
    var p := s.msgQ[0];
    assert p in s.msgQ;
    EventLive(s, p);
    FreeEventMem(s, p, PopMsg(s));
    PopMsgRings(s, PopMsg(s));
  }

  lemma PopFinBlocks(s: Gateway)
    requires BlocksOk(s) && s.finQ != []
    ensures s.finQ[0] in s.events && BlocksOk(PopFin(s)) && |PopFin(s).finQ| < |s.finQ|
    ensures Overdue(PopFin(s), PopFin(s).finQ) <= Overdue(s, s.finQ)
  {
    var p := s.finQ[0];
    assert p in s.finQ;
    EventLive(s, p);
    FreeEventMem(s, p, PopFin(s));
    PopFinRings(s, PopFin(s));
    PopFinProgress(s);
  }

  lemma ResendBlocks(s: Gateway)
    requires BlocksOk(s) && s.finQ != [] && s.finQ[0] in s.events
    ensures BlocksOk(Resend(s)) && |Resend(s).finQ| == |s.finQ|
    ensures s.clock - s.events[s.finQ[0]].arrTime > FIN_TIMEOUT ==>
      Overdue(Resend(s), Resend(s).finQ) < Overdue(s, s.finQ)
  {
    MemSame(s, Resend(s));
    ResendRings(s);
    if s.clock - s.events[s.finQ[0]].arrTime > FIN_TIMEOUT {
      ResendProgress(s);
    }
  }

  lemma DisconnectBlocks(s: Gateway, c: nat)
    requires BlocksOk(s)
    ensures BlocksOk(Disconnect(s, c))
  {
    var t := Disconnect(s, c);
    MemSame(s, t);
    forall q | q in t.events ensures EventOk(t, q) {
      assert EventOk(s, q);
    }
    assert forall q :: TimeOf(t, q) == TimeOf(s, q);
  }

  /** An event may be freed once its client is gone or it is no longer current. */
  lemma PopMsgSound(s: Gateway)
    requires Inv(s) && s.msgQ != []
    requires s.msgQ[0] in s.events && (s.events[s.msgQ[0]].uuid !in s.clients || s.events[s.msgQ[0]].msgFlag)
    ensures Inv(PopMsg(s))
  {
    var p, t := s.msgQ[0], PopMsg(s);
    EventLive(s, p);
    FreeEventMem(s, p, t);
    PopMsgRings(s, t);
    PopTables(s, t, p);
    SameHistory(s, t);
  }

  lemma PopMsgRings(s: Gateway, t: Gateway)
    requires RingsOk(s) && s.msgQ != [] && t.msgQ == s.msgQ[1..] && t.finQ == s.finQ
    requires t.events == s.events - {s.msgQ[0]} && t.nextId == s.nextId && t.clock == s.clock
    ensures RingsOk(t)
  {
    PopMembers(s.msgQ);
    forall q | q in t.events ensures EventOk(t, q) {
      assert EventOk(s, q);
    }
    forall i, j | 0 <= i < j < |t.msgQ| ensures TimeOf(t, t.msgQ[i]) <= TimeOf(t, t.msgQ[j]) {
      assert t.msgQ[i] in t.msgQ && t.msgQ[j] in t.msgQ;
      assert t.msgQ[i] == s.msgQ[i + 1] && t.msgQ[j] == s.msgQ[j + 1];
    }
    forall i, j | 0 <= i < j < |t.finQ| ensures TimeOf(t, t.finQ[i]) <= TimeOf(t, t.finQ[j]) {
      assert t.finQ[i] in s.finQ && t.finQ[j] in s.finQ && s.msgQ[0] in s.msgQ;
    }
  }

  /** No table points to an event that may be freed. */
  lemma PopTables(s: Gateway, t: Gateway, p: Addr)
    requires RingsOk(s) && ClientsOk(s) && TablesOk(s) && p in s.events
    requires s.events[p].uuid !in s.clients || (p in s.msgQ && s.events[p].msgFlag)
      || (p in s.finQ && s.events[p].finishFlag)
    requires t.events == s.events - {p} && t.clients == s.clients && t.nextId == s.nextId
    requires forall q {:trigger q in t.msgQ} :: q in t.msgQ <==> q in s.msgQ && q != p
    requires forall q {:trigger q in t.finQ} :: q in t.finQ <==> q in s.finQ && q != p
    ensures ClientsOk(t) && TablesOk(t)
  {
    forall c | c in t.clients ensures c < t.nextId && CurrentOk(t, c) {
      assert CurrentOk(s, c);
      assert s.clients[c].table[0] in s.msgQ;
      assert p in s.msgQ || p in s.finQ;
    }
    forall c, k | c in t.clients && k in t.clients[c].table && k != 0 ensures PendingOk(t, c, k) {
      assert PendingOk(s, c, k);
      assert p in s.msgQ || p in s.finQ;
    }
    forall q | q in t.events ensures TabledOk(t, q) {
      assert TabledOk(s, q);
    }
  }

  lemma SameHistory(s: Gateway, t: Gateway)
    requires HistoryOk(s) && t.clients == s.clients && t.sent == s.sent && t.replies == s.replies
      && t.nextId == s.nextId
    ensures HistoryOk(t)
  {
    forall c, k | c in t.clients && 1 <= k ensures RequestOk(t, c, k) {
      assert RequestOk(s, c, k);
    }
    forall c, k: nat | c in t.clients ensures SentOk(t, c, k) {
      assert SentOk(s, c, k);
    }
  }

  predicate Idle(s: Gateway, p: Addr)
    requires p in s.events
  {
    s.clock - s.events[p].arrTime > MSG_TIMEOUT
  }

  /** The first loop of check_time_out_cb. */
  ghost function MsgSweep(s: Gateway): (t: Gateway)
    requires BlocksOk(s)
    ensures BlocksOk(t)
    decreases |s.msgQ|
  {
    if s.msgQ == [] then s else
      PopMsgBlocks(s);
      var p := s.msgQ[0];
      var e := s.events[p];
      if e.uuid !in s.clients then
        MsgSweep(PopMsg(s))
      else if Idle(s, p) then
        var s1 := if !e.msgFlag then Disconnect(s, e.uuid) else s;
        DisconnectBlocks(s, e.uuid);
        PopMsgBlocks(s1);
        MsgSweep(PopMsg(s1))
      else
        s
  }

  /** One round of the idle sweep. */
  lemma MsgRound(s: Gateway)
    requires BlocksOk(s) && s.msgQ != []
    ensures MemOk(s) && s.msgQ[0] in s.events
    ensures var e := s.events[s.msgQ[0]];
      var s1 := if e.uuid in s.clients && !e.msgFlag then Disconnect(s, e.uuid) else s;
      if e.uuid !in s.clients || Idle(s, s.msgQ[0]) then
        MemOk(s1) && BlocksOk(PopMsg(s1)) && MsgSweep(PopMsg(s1)) == MsgSweep(s) && |PopMsg(s1).msgQ| < |s.msgQ|
      else
        MsgSweep(s) == s
  {
    PopMsgBlocks(s);
    var e := s.events[s.msgQ[0]];
    DisconnectBlocks(s, e.uuid);
    PopMsgBlocks(if e.uuid in s.clients && !e.msgFlag then Disconnect(s, e.uuid) else s);
  }

  /** The same in a sound state. */
  lemma MsgSweepStep(s: Gateway)
    requires Inv(s) && s.msgQ != []
    ensures MemOk(s) && s.msgQ[0] in s.events
    ensures var e := s.events[s.msgQ[0]];
      var s1 := if e.uuid in s.clients && !e.msgFlag then Disconnect(s, e.uuid) else s;
      e.uuid !in s.clients || Idle(s, s.msgQ[0]) ==>
        MemOk(s1) && Inv(PopMsg(s1)) && MsgSweep(PopMsg(s1)) == MsgSweep(s) && |PopMsg(s1).msgQ| < |s.msgQ|
  {
    assert s.msgQ[0] in s.msgQ;
    var e := s.events[s.msgQ[0]];
    DisconnectSound(s, e.uuid);
    if e.uuid !in s.clients {
      PopMsgSound(s);
    } else if Idle(s, s.msgQ[0]) {
      PopMsgSound(if !e.msgFlag then Disconnect(s, e.uuid) else s);
    }
  }

  lemma MsgSweepDone(s: Gateway)
    requires BlocksOk(s)
    requires s.msgQ == [] || (s.msgQ[0] in s.events && s.events[s.msgQ[0]].uuid in s.clients && !Idle(s, s.msgQ[0]))
    ensures MsgSweep(s) == s
  {
  }

  /** When client c connected or last had a request accepted. */
  function LastSeen(s: Gateway, c: nat): int {
    if c in s.clients && 0 in s.clients[c].table then TimeOf(s, s.clients[c].table[0]) else 0
  }

  ghost predicate Stays(s: Gateway, c: nat) {
    c in s.clients && s.clock - LastSeen(s, c) <= MSG_TIMEOUT
  }

  /**
   The idle sweep stops at the first fresh event, and yet disconnects exactly the clients that
   have been silent for more than MSG_TIMEOUT.
   */
  lemma {:induction false} MsgSweepSound(s: Gateway)
    requires Inv(s)
    ensures Inv(MsgSweep(s))
    ensures forall c {:trigger c in MsgSweep(s).clients} :: c in MsgSweep(s).clients <==> Stays(s, c)
    ensures forall c {:trigger c in MsgSweep(s).clients} | c in MsgSweep(s).clients ::
      c in s.clients && MsgSweep(s).clients[c] == s.clients[c]
    ensures MsgSweep(s).finQ == s.finQ && MsgSweep(s).clock == s.clock
    ensures MsgSweep(s).replies == s.replies && MsgSweep(s).sent == s.sent && MsgSweep(s).nextId == s.nextId
    decreases |s.msgQ|
  {
    if s.msgQ != [] {
      var p := s.msgQ[0];
      assert p in s.msgQ;
      var e := s.events[p];
      if e.uuid !in s.clients {
        PopMsgSound(s);
        PopKeepsStays(s);
        MsgSweepSound(PopMsg(s));
      } else if Idle(s, p) {
        var s1 := if !e.msgFlag then Disconnect(s, e.uuid) else s;
        DisconnectSound(s, e.uuid);
        PopMsgSound(s1);
        PopKeepsStays(s1);
        IdleIsLastSeen(s);
        MsgSweepSound(PopMsg(s1));
      } else {
        FreshFront(s);
      }
    } else {
      NoEventsNoClients(s);
    }
  }

  lemma CurrentInRing(s: Gateway, c: nat)
    requires ClientsOk(s) && c in s.clients
    ensures s.msgQ != []
  {
    assert CurrentOk(s, c);
  }

  lemma NoEventsNoClients(s: Gateway)
    requires ClientsOk(s) && s.msgQ == []
    ensures forall c :: c !in s.clients
  {
    if c :| c in s.clients {
      CurrentInRing(s, c);
      assert false;
    }
  }

  lemma PopKeepsStays(s: Gateway)
    requires Inv(s) && s.msgQ != [] && s.msgQ[0] in s.events
    requires s.events[s.msgQ[0]].uuid !in s.clients || s.events[s.msgQ[0]].msgFlag
    ensures forall c {:trigger Stays(s, c)} :: Stays(PopMsg(s), c) <==> Stays(s, c)
  {
    forall c ensures Stays(PopMsg(s), c) <==> Stays(s, c) {
      assert c in s.clients ==> CurrentOk(s, c);
    }
  }

  lemma IdleIsLastSeen(s: Gateway)
    requires Inv(s) && s.msgQ != [] && s.msgQ[0] in s.events
    requires s.events[s.msgQ[0]].uuid in s.clients && Idle(s, s.msgQ[0])
    ensures var e := s.events[s.msgQ[0]];
      var s1 := if !e.msgFlag then Disconnect(s, e.uuid) else s;
      forall c {:trigger Stays(s, c)} {:trigger Stays(s1, c)} :: Stays(s1, c) <==> Stays(s, c)
  {
    var p := s.msgQ[0];
    assert p in s.msgQ && TabledOk(s, p);
  }

  lemma FreshFront(s: Gateway)
    requires Inv(s) && s.msgQ != [] && s.msgQ[0] in s.events && !Idle(s, s.msgQ[0])
    ensures forall c {:trigger c in s.clients} :: c in s.clients <==> Stays(s, c)
  {
    forall c | c in s.clients ensures Stays(s, c) {
      assert CurrentOk(s, c);
      var i :| 0 <= i < |s.msgQ| && s.msgQ[i] == s.clients[c].table[0];
      assert i > 0 ==> TimeOf(s, s.msgQ[0]) <= TimeOf(s, s.msgQ[i]);
    }
  }

  // ----- the timer: unanswered requests

  lemma PopFinSound(s: Gateway)
    requires Inv(s) && s.finQ != []
    requires s.finQ[0] in s.events && (s.events[s.finQ[0]].uuid !in s.clients || s.events[s.finQ[0]].finishFlag)
    ensures Inv(PopFin(s))
  {
    var p, t := s.finQ[0], PopFin(s);
    EventLive(s, p);
    FreeEventMem(s, p, t);
    PopFinRings(s, t);
    PopTables(s, t, p);
    SameHistory(s, t);
  }

  lemma PopFinRings(s: Gateway, t: Gateway)
    requires RingsOk(s) && s.finQ != [] && t.finQ == s.finQ[1..] && t.msgQ == s.msgQ
    requires t.events == s.events - {s.finQ[0]} && t.nextId == s.nextId && t.clock == s.clock
    ensures RingsOk(t)
  {
    PopMembers(s.finQ);
    forall q | q in t.events ensures EventOk(t, q) {
      assert EventOk(s, q);
    }
    forall i, j | 0 <= i < j < |t.finQ| ensures TimeOf(t, t.finQ[i]) <= TimeOf(t, t.finQ[j]) {
      assert t.finQ[i] in t.finQ && t.finQ[j] in t.finQ;
      assert t.finQ[i] == s.finQ[i + 1] && t.finQ[j] == s.finQ[j + 1];
    }
    forall i, j | 0 <= i < j < |t.msgQ| ensures TimeOf(t, t.msgQ[i]) <= TimeOf(t, t.msgQ[j]) {
      assert t.msgQ[i] in s.msgQ && t.msgQ[j] in s.msgQ && s.finQ[0] in s.finQ;
    }
  }

  /** Resend the request at the front: it goes to the back of the ring with a new time. */
  function Resend(s: Gateway): Gateway
    requires s.finQ != [] && s.finQ[0] in s.events
  {
    var p := s.finQ[0];
    s.(events := s.events[p := s.events[p].(arrTime := s.clock)], finQ := s.finQ[1..] + [p],
       writes := s.writes + [Write(s.events[p].uuid, s.events[p].pack, s.clock)])
  }

  lemma ResendSound(s: Gateway)
    requires Inv(s) && s.finQ != [] && s.finQ[0] in s.events
    ensures Inv(Resend(s))
  {
    var p, t := s.finQ[0], Resend(s);
    MemSame(s, t);
    ResendRings(s);
    forall c | c in t.clients ensures c < t.nextId && CurrentOk(t, c) {
      assert CurrentOk(s, c);
    }
    forall c, k | c in t.clients && k in t.clients[c].table && k != 0 ensures PendingOk(t, c, k) {
      assert PendingOk(s, c, k);
    }
    forall q | q in t.events ensures TabledOk(t, q) {
      assert TabledOk(s, q);
    }
    SameHistory(s, t);
  }

  lemma ResendRings(s: Gateway)
    requires RingsOk(s) && s.finQ != [] && s.finQ[0] in s.events
    ensures RingsOk(Resend(s)) && forall q {:trigger q in Resend(s).finQ} :: q in Resend(s).finQ <==> q in s.finQ
  {
    var p, t := s.finQ[0], Resend(s);
    PopMembers(s.finQ);
    PushMembers(s.finQ[1..], p);
    forall q | q in t.events ensures EventOk(t, q) {
      assert EventOk(s, q);
    }
    forall i, j | 0 <= i < j < |t.finQ| ensures TimeOf(t, t.finQ[i]) <= TimeOf(t, t.finQ[j]) {
      assert t.finQ[i] == s.finQ[i + 1] && t.finQ[i] in s.finQ[1..] && EventOk(s, t.finQ[i]);
      assert j < |s.finQ[1..]| ==> t.finQ[j] == s.finQ[j + 1] && t.finQ[j] in s.finQ[1..];
    }
    forall i, j | 0 <= i < j < |t.msgQ| ensures TimeOf(t, t.msgQ[i]) <= TimeOf(t, t.msgQ[j]) {
      assert t.msgQ[i] in s.msgQ && t.msgQ[j] in s.msgQ;
    }
  }

  /** How many events of q were last sent more than FIN_TIMEOUT ago. */
  function Overdue(s: Gateway, q: seq<Addr>): nat {
    if q == [] then 0 else (if s.clock - TimeOf(s, q[0]) > FIN_TIMEOUT then 1 else 0) + Overdue(s, q[1..])
  }

  lemma {:induction false} OverdueSame(s: Gateway, t: Gateway, q: seq<Addr>)
    requires t.clock == s.clock && forall p | p in q :: TimeOf(t, p) == TimeOf(s, p)
    ensures Overdue(t, q) == Overdue(s, q)
  {
    if q != [] {
      assert q[0] in q;
      OverdueSame(s, t, q[1..]);
    }
  }

  lemma {:induction false} OverduePush(s: Gateway, q: seq<Addr>, p: Addr)
    ensures Overdue(s, q + [p]) == Overdue(s, q) + Overdue(s, [p])
  {
    if q == [] {
      assert q + [p] == [p];
    } else {
      assert (q + [p])[1..] == q[1..] + [p];
      OverduePush(s, q[1..], p);
    }
  }

  /** The sweep makes progress although it refills the ring it drains. */
  lemma ResendProgress(s: Gateway)
    requires RingsOk(s) && s.finQ != [] && s.finQ[0] in s.events && s.clock - s.events[s.finQ[0]].arrTime > FIN_TIMEOUT
    ensures Overdue(Resend(s), Resend(s).finQ) + 1 == Overdue(s, s.finQ)
  {
    var t := Resend(s);
    PopMembers(s.finQ);
    OverduePush(t, s.finQ[1..], s.finQ[0]);
    OverdueSame(s, t, s.finQ[1..]);
  }

  lemma PopFinProgress(s: Gateway)
    requires BlocksOk(s) && s.finQ != [] && s.finQ[0] in s.events
    ensures Overdue(PopFin(s), PopFin(s).finQ) <= Overdue(s, s.finQ)
  {
    PopMembers(s.finQ);
    OverdueSame(s, PopFin(s), s.finQ[1..]);
  }

  /** The second loop of check_time_out_cb; None when a resend finds the ring full. */
  ghost function FinSweep(s: Gateway): (t: Option<Gateway>)
    requires BlocksOk(s)
    ensures t.Some? ==> BlocksOk(t.value)
    decreases |s.finQ| + Overdue(s, s.finQ)
  {
    if s.finQ == [] then Some(s) else
      PopFinBlocks(s);
      var p := s.finQ[0];
      var e := s.events[p];
      if e.uuid !in s.clients then
        FinSweep(PopFin(s))
      else if s.clock - e.arrTime > FIN_TIMEOUT then
        if !e.finishFlag then
          if |s.finQ| + 1 == RING_LEN then None else
            ResendBlocks(s);
            FinSweep(Resend(s))
        else
          FinSweep(PopFin(s))
      else
        Some(s)
  }

  /**
   After the sweep nothing in fin_queue was last sent more than FIN_TIMEOUT ago; connections,
   tables and history are as before, so every unanswered request is still there to be resent.
   */
  lemma {:induction false} FinSweepSound(s: Gateway)
    requires Inv(s) && FinSweep(s).Some?
    ensures var t := FinSweep(s).value;
      && Inv(t)
      && (forall p {:trigger p in t.finQ} | p in t.finQ ::
        p in t.events && t.clock - t.events[p].arrTime <= FIN_TIMEOUT)
      && t.clients == s.clients && t.clock == s.clock && t.msgQ == s.msgQ
      && t.sent == s.sent && t.replies == s.replies && t.nextId == s.nextId
    decreases |s.finQ| + Overdue(s, s.finQ)
  {
    if s.finQ != [] {
      var p := s.finQ[0];
      assert p in s.finQ;
      var e := s.events[p];
      if e.uuid !in s.clients || (s.clock - e.arrTime > FIN_TIMEOUT && e.finishFlag) {
        PopFinSound(s);
        PopFinProgress(s);
        FinSweepSound(PopFin(s));
      } else if s.clock - e.arrTime > FIN_TIMEOUT {
        ResendSound(s);
        ResendProgress(s);
        FinSweepSound(Resend(s));
      } else {
        RecentFront(s);
      }
    }
  }

  /** One round of the resend sweep. */
  lemma FinRound(s: Gateway)
    requires BlocksOk(s) && s.finQ != []
    ensures MemOk(s) && s.finQ[0] in s.events
    ensures var e := s.events[s.finQ[0]];
      if e.uuid !in s.clients || (s.clock - e.arrTime > FIN_TIMEOUT && e.finishFlag) then
        && BlocksOk(PopFin(s)) && FinSweep(PopFin(s)) == FinSweep(s)
        && |PopFin(s).finQ| + Overdue(PopFin(s), PopFin(s).finQ) < |s.finQ| + Overdue(s, s.finQ)
      else if s.clock - e.arrTime > FIN_TIMEOUT then
        if |s.finQ| + 1 == RING_LEN then FinSweep(s) == None else
          && BlocksOk(Resend(s)) && FinSweep(Resend(s)) == FinSweep(s)
          && |Resend(s).finQ| + Overdue(Resend(s), Resend(s).finQ) < |s.finQ| + Overdue(s, s.finQ)
      else
        FinSweep(s) == Some(s)
  {
    PopFinBlocks(s);
    ResendBlocks(s);
  }

  /** The same in a sound state. */
  lemma FinSweepStep(s: Gateway)
    requires Inv(s) && s.finQ != []
    ensures MemOk(s) && s.finQ[0] in s.events
    ensures var e := s.events[s.finQ[0]];
      e.uuid !in s.clients || (s.clock - e.arrTime > FIN_TIMEOUT && e.finishFlag) ==>
        && Inv(PopFin(s)) && FinSweep(PopFin(s)) == FinSweep(s)
        && |PopFin(s).finQ| + Overdue(PopFin(s), PopFin(s).finQ) < |s.finQ| + Overdue(s, s.finQ)
    ensures var e := s.events[s.finQ[0]];
      e.uuid in s.clients && s.clock - e.arrTime > FIN_TIMEOUT && !e.finishFlag ==>
        if |s.finQ| + 1 == RING_LEN then FinSweep(s) == None else
          && Inv(Resend(s)) && FinSweep(Resend(s)) == FinSweep(s)
          && |Resend(s).finQ| + Overdue(Resend(s), Resend(s).finQ) < |s.finQ| + Overdue(s, s.finQ)
  {
    assert s.finQ[0] in s.finQ;
    var e := s.events[s.finQ[0]];
    if e.uuid !in s.clients || (s.clock - e.arrTime > FIN_TIMEOUT && e.finishFlag) {
      PopFinSound(s);
      PopFinProgress(s);
    } else if s.clock - e.arrTime > FIN_TIMEOUT {
      ResendSound(s);
      ResendProgress(s);
    }
  }

  lemma FinSweepDone(s: Gateway)
    requires BlocksOk(s)
    requires s.finQ == [] || (s.finQ[0] in s.events && s.events[s.finQ[0]].uuid in s.clients
                              && s.clock - s.events[s.finQ[0]].arrTime <= FIN_TIMEOUT)
    ensures FinSweep(s) == Some(s)
  {
  }

  lemma RecentFront(s: Gateway)
    requires RingsOk(s) && s.finQ != [] && s.finQ[0] in s.events && s.clock - s.events[s.finQ[0]].arrTime <= FIN_TIMEOUT
    ensures forall p {:trigger p in s.finQ} | p in s.finQ ::
      p in s.events && s.clock - s.events[p].arrTime <= FIN_TIMEOUT
  {
    forall p | p in s.finQ ensures p in s.events && s.clock - s.events[p].arrTime <= FIN_TIMEOUT {
      var i :| 0 <= i < |s.finQ| && s.finQ[i] == p;
      assert i > 0 ==> TimeOf(s, s.finQ[0]) <= TimeOf(s, s.finQ[i]);
    }
  }

  /** The sweep halts exactly when the ring is full and the request at its front is due for a resend. */
  lemma {:induction false} FinSweepHalts(s: Gateway)
    requires Inv(s)
    ensures FinSweep(s).None? <==>
      && |s.finQ| + 1 == RING_LEN
      && s.finQ[0] in s.events
      && var e := s.events[s.finQ[0]];
         e.uuid in s.clients && !e.finishFlag && s.clock - e.arrTime > FIN_TIMEOUT
    decreases |s.finQ| + Overdue(s, s.finQ)
  {
    if s.finQ != [] {
      var p := s.finQ[0];
      assert p in s.finQ;
      var e := s.events[p];
      if e.uuid !in s.clients || (s.clock - e.arrTime > FIN_TIMEOUT && e.finishFlag) {
        PopFinSound(s);
        PopFinProgress(s);
        FinSweepHalts(PopFin(s));
      } else if s.clock - e.arrTime > FIN_TIMEOUT && |s.finQ| + 1 != RING_LEN {
        ResendSound(s);
        ResendProgress(s);
        FinSweepHalts(Resend(s));
      }
    }
  }

  /** check_time_out_cb, at one instant. */
  ghost function Tick(s: Gateway, now: int): (t: Option<Gateway>)
    requires BlocksOk(s) && now >= s.clock
    ensures t.Some? ==> BlocksOk(t.value)
  {
    ClockBlocks(s, now);
    FinSweep(MsgSweep(s.(clock := now)))
  }

  lemma ClockBlocks(s: Gateway, now: int)
    requires BlocksOk(s) && now >= s.clock
    ensures BlocksOk(s.(clock := now))
  {
    var t := s.(clock := now);
    MemSame(s, t);
    forall q | q in t.events ensures EventOk(t, q) {
      assert EventOk(s, q);
    }
    assert forall q :: TimeOf(t, q) == TimeOf(s, q);
  }

  lemma ClockSound(s: Gateway, now: int)
    requires Inv(s) && now >= s.clock
    ensures Inv(s.(clock := now))
  {
    var t := s.(clock := now);
    MemSame(s, t);
    forall q | q in t.events ensures EventOk(t, q) && TabledOk(t, q) {
      assert EventOk(s, q) && TabledOk(s, q);
    }
    forall c | c in t.clients ensures c < t.nextId && CurrentOk(t, c) {
      assert CurrentOk(s, c);
    }
    forall c, k | c in t.clients && k in t.clients[c].table && k != 0 ensures PendingOk(t, c, k) {
      assert PendingOk(s, c, k);
    }
    SameHistory(s, t);
    assert forall q :: TimeOf(t, q) == TimeOf(s, q);
  }
}
