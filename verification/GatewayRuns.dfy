/**
 Whole runs of a gateway worker: any sequence of callbacks the event loop may make, with a clock
 that does not go back and servers that only answer (any number of times) what they were sent.
 */
module GatewayRuns {
  import opened Sequences
  import opened Words
  import opened Options
  import opened GatewaySpec
  import Pools

  datatype Call =
    | ClientConnects(now: int)
    | ClientSends(c: nat, now: int, len: nat)
    | ServerReplies(c: nat, k: nat)
    | ClientLeaves(c: nat)
    | TimerFires(now: int)
    | PeriodEnds

  predicate Enabled(s: Gateway, call: Call) {
    match call
    case ClientConnects(now) => now >= s.clock
    case ClientSends(c, now, len) => c in s.clients && now >= s.clock && KeepsFlag(len)
    case ServerReplies(c, k) => (c, k) in s.sent
    case ClientLeaves(c) => c in s.clients
    case TimerFires(now) => now >= s.clock
    case PeriodEnds => true
  }

  ghost function Step(s: Gateway, call: Call): Option<Gateway>
    requires GatewaySpec.Inv(s) && Enabled(s, call)
  {
    match call
    case ClientConnects(now) => Connect(s, now)
    case ClientSends(c, now, len) => Request(s, c, now, len)
    case ServerReplies(c, k) => Some(Reply(s, c, k))
    case ClientLeaves(c) => Some(Disconnect(s, c))
    case TimerFires(now) => Tick(s, now)
    case PeriodEnds => Some(EmptyCount(s))
  }

  /** A worker as it starts: start is where malloc put the pool's arena. */
  function Start(start: Addr, garbage: bool, now: int): Gateway {
    Gateway(Pools.Init(MAX_SIZE, POOL_SIZE, start, garbage), map[], map[], 0, [], [], now, {}, [], [])
  }

  lemma StartSound(start: Addr, garbage: bool, now: int)
    requires NULL < start
    ensures GatewaySpec.Inv(Start(start, garbage, now))
  {
    Pools.InitSound(MAX_SIZE, POOL_SIZE, start, garbage);
  }

  lemma StepSound(s: Gateway, call: Call)
    requires GatewaySpec.Inv(s) && Enabled(s, call) && Step(s, call).Some?
    ensures GatewaySpec.Inv(Step(s, call).value)
  {
    match call
    case ClientConnects(now) => ConnectSound(s, now);
    case ClientSends(c, now, len) => RequestSound(s, c, now, len);
    case ServerReplies(c, k) => ReplySound(s, c, k);
    case ClientLeaves(c) => DisconnectSound(s, c);
    case TimerFires(now) => TickSound(s, now);
    case PeriodEnds => EmptyCountSound(s);
  }

  /**
   What one timer tick achieves, unless it halts: exactly the silent clients are gone, and no
   request left in fin_queue was last sent more than FIN_TIMEOUT ago.
   */
  lemma TickSound(s: Gateway, now: int)
    requires GatewaySpec.Inv(s) && now >= s.clock && Tick(s, now).Some?
    ensures var t := Tick(s, now).value;
      && GatewaySpec.Inv(t) && t.clock == now
      && (forall c {:trigger c in t.clients} :: c in t.clients <==>
        c in s.clients && now - LastSeen(s, c) <= MSG_TIMEOUT)
      && (forall p {:trigger p in t.finQ} | p in t.finQ :: p in t.events && now - t.events[p].arrTime <= FIN_TIMEOUT)
      && t.replies == s.replies && t.sent == s.sent
  {
    hide MemOk, RingsOk, ClientsOk, TablesOk, HistoryOk;
    ClockSound(s, now);
    var s0 := s.(clock := now);
    MsgSweepSound(s0);
    FinSweepSound(MsgSweep(s0));
    forall c ensures c in MsgSweep(s0).clients <==> c in s.clients && now - LastSeen(s, c) <= MSG_TIMEOUT {
      assert c in MsgSweep(s0).clients <==> Stays(s0, c);
    }
  }

  ghost predicate Reaches(s: Gateway, calls: seq<Call>, t: Gateway)
    requires GatewaySpec.Inv(s)
    decreases |calls|
  {
    if calls == [] then t == s else
      && Enabled(s, calls[0])
      && Step(s, calls[0]).Some?
      && (StepSound(s, calls[0]); Reaches(Step(s, calls[0]).value, calls[1..], t))
  }

  /** t is reached by calls from a worker as it starts. */
  ghost predicate Reachable(start: Addr, garbage: bool, t0: int, calls: seq<Call>, t: Gateway)
    requires NULL < start
  {
    StartSound(start, garbage, t0);
    Reaches(Start(start, garbage, t0), calls, t)
  }

  lemma {:induction false} RunSound(s: Gateway, calls: seq<Call>, t: Gateway)
    requires GatewaySpec.Inv(s) && Reaches(s, calls, t)
    ensures GatewaySpec.Inv(t)
    decreases |calls|
  {
    if calls != [] {
      StepSound(s, calls[0]);
      RunSound(Step(s, calls[0]).value, calls[1..], t);
    }
  }

  /** In no run can an event allocation fail, or make the pool ask the system for more memory. */
  lemma RunNeverExhaustsPool(start: Addr, garbage: bool, t0: int, calls: seq<Call>, t: Gateway, grant: Addr)
    requires NULL < start && Reachable(start, garbage, t0, calls, t)
    ensures Pools.PoolInv(t.pool)
    ensures Pools.Alloc(t.pool, EVENT_SIZE, grant).1 != NULL
    ensures |t.pool.arenas| == 1 && |Pools.Alloc(t.pool, EVENT_SIZE, grant).0.arenas| == 1
  {
    StartSound(start, garbage, t0);
    RunSound(Start(start, garbage, t0), calls, t);
    EventFits(t, grant);
  }

  /**
   Nothing is leaked, freed twice or used after it was freed: the pool's blocks are the members of
   the rings, a ring holds nothing twice, and every table entry is a live block.
   */
  lemma RunOwnsItsEvents(s: Gateway, calls: seq<Call>, t: Gateway)
    requires GatewaySpec.Inv(s) && Reaches(s, calls, t)
    ensures forall p: Addr {:trigger Pools.IsLive(t.pool, p)} :: Pools.IsLive(t.pool, p) <==> p in t.msgQ + t.finQ
    ensures Distinct(t.msgQ + t.finQ)
    ensures forall c, k | c in t.clients && k in t.clients[c].table :: Pools.IsLive(t.pool, t.clients[c].table[k])
  {
    RunSound(s, calls, t);
    forall p: Addr ensures Pools.IsLive(t.pool, p) <==> p in t.msgQ + t.finQ {
      LiveIsEvent(t, p);
      assert p in t.msgQ + t.finQ <==> p in t.msgQ || p in t.finQ;
    }
    forall i, j | 0 <= i < j < |t.msgQ + t.finQ| ensures (t.msgQ + t.finQ)[i] != (t.msgQ + t.finQ)[j] {
      assert i < |t.msgQ| ==> t.msgQ[i] in t.msgQ;
      assert j >= |t.msgQ| ==> t.finQ[j - |t.msgQ|] in t.finQ;
    }
    forall c, k | c in t.clients && k in t.clients[c].table ensures Pools.IsLive(t.pool, t.clients[c].table[k]) {
      assert CurrentOk(t, c) && (k != 0 ==> PendingOk(t, c, k));
      LiveIsEvent(t, t.clients[c].table[k]);
    }
  }

  lemma LiveIsEvent(s: Gateway, p: Addr)
    requires GatewaySpec.Inv(s)
    ensures Pools.IsLive(s.pool, p) <==> p in s.events
    ensures p in s.events <==> p in s.msgQ || p in s.finQ
  {
    assert p in s.events <==> Pools.LiveIn(Arena(s), p);
    if Pools.IsLive(s.pool, p) {
      var i :| 0 <= i < |s.pool.arenas| && Pools.LiveIn(s.pool.arenas[i], p);
      assert i == 0;
    }
  }

  /** Of the events of a connected client exactly one in msg_queue is unflagged: entry 0 of its table. */
  lemma RunOneCurrentEvent(s: Gateway, calls: seq<Call>, t: Gateway, c: nat, p: Addr)
    requires GatewaySpec.Inv(s) && Reaches(s, calls, t) && c in t.clients
    ensures 0 in t.clients[c].table
    ensures p in t.msgQ && p in t.events && t.events[p].uuid == c && !t.events[p].msgFlag <==>
      p == t.clients[c].table[0]
  {
    RunSound(s, calls, t);
    assert CurrentOk(t, c);
    assert p in t.events ==> TabledOk(t, p);
  }

  /** A request is answered at most once, and only if it was made. */
  lemma RunAnswersOnce(s: Gateway, calls: seq<Call>, t: Gateway, i: nat, j: nat)
    requires GatewaySpec.Inv(s) && Reaches(s, calls, t) && i < j < |t.replies|
    ensures t.replies[i] != t.replies[j] && t.replies[i] in t.sent
  {
    RunSound(s, calls, t);
    var (c, k) := t.replies[i];
    assert (c, k) in t.replies;
  }

  /** Repeating a reply changes nothing. */
  lemma ReplyTwice(s: Gateway, c: nat, k: nat)
    requires GatewaySpec.Inv(s) && (c, k) in s.sent
    ensures Reply(Reply(s, c, k), c, k) == Reply(s, c, k)
  {
    ReplySound(s, c, k);
  }

  /** p is an event that waits for the answer to request k of client c. */
  predicate Awaits(s: Gateway, p: Addr, c: nat, k: nat) {
    p in s.events && s.events[p].uuid == c && s.events[p].pack == k && !s.events[p].finishFlag
  }

  /**
   A connected client's request is pending under its pack_id exactly while it is unanswered, and
   then stands at exactly one place of fin_queue.
   */
  lemma RunKeepsRequest(s: Gateway, calls: seq<Call>, t: Gateway, c: nat, k: nat) returns (i: nat)
    requires GatewaySpec.Inv(s) && Reaches(s, calls, t) && c in t.clients && (c, k) in t.sent
    ensures k in t.clients[c].table <==> (c, k) !in t.replies
    ensures (c, k) !in t.replies ==> i < |t.finQ| && t.finQ[i] == t.clients[c].table[k]
    ensures forall j | 0 <= j < |t.finQ| && (c, k) !in t.replies :: j == i <==> Awaits(t, t.finQ[j], c, k)
  {
    RunSound(s, calls, t);
    i := 0;
    assert SentOk(t, c, k) && RequestOk(t, c, k);
    if (c, k) !in t.replies {
      assert PendingOk(t, c, k);
      i :| 0 <= i < |t.finQ| && t.finQ[i] == t.clients[c].table[k];
      forall j | 0 <= j < |t.finQ|
        ensures j == i <==> Awaits(t, t.finQ[j], c, k)
      {
        assert t.finQ[j] in t.finQ && TabledOk(t, t.finQ[j]);
        assert j < i ==> t.finQ[j] != t.finQ[i];
        assert i < j ==> t.finQ[i] != t.finQ[j];
      }
    }
  }
}
