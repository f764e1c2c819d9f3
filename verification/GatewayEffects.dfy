/**
 What each callback of a gateway worker does to every client, stated over the clients' fields, and
 the life of one client over whole runs, told from the calls alone.
 */
module GatewayEffects {
  import opened GatewayHistory
  import opened GatewayRuns
  import opened GatewaySpec
  import opened Words
  import EventText
  import Pools
  import RateLimit

  // ----- one call

  /** Every client but c is in t exactly if it is in s, and as it is there. */
  ghost predicate OthersStay(s: Gateway, t: Gateway, c: nat) {
    && (forall d {:trigger d in t.clients} {:trigger d in s.clients} | d != c :: d in t.clients <==> d in s.clients)
    && forall d {:trigger t.clients[d]} {:trigger s.clients[d]} | d in s.clients && d != c ::
          d in t.clients && t.clients[d] == s.clients[d]
  }

  /** Every event of s but the one at p is as it was. */
  ghost predicate EventsStay(s: Gateway, t: Gateway, p: Addr) {
    forall q {:trigger t.events[q]} {:trigger s.events[q]} | q in s.events && q != p ::
      q in t.events && t.events[q] == s.events[q]
  }

  /** A connection adds one client, under the next id, and leaves every other as it was. */
  lemma ConnectEffect(s: Gateway, now: int)
    requires GatewaySpec.Inv(s) && now >= s.clock
    ensures Pools.PoolInv(s.pool) && (Connect(s, now).None? <==> |s.msgQ| + 1 == RING_LEN)
    ensures Connect(s, now).Some? ==>
      var t := Connect(s, now).value;
      && s.nextId !in s.clients && s.nextId in t.clients && OthersStay(s, t, s.nextId) && t.nextId == s.nextId + 1
      && var cl := t.clients[s.nextId];
      && cl.count == 0 && !cl.closeFlag && cl.packId == 0 && cl.table.Keys == {0}
      && cl.table[0] !in s.events && t.msgQ == s.msgQ + [cl.table[0]] && t.finQ == s.finQ
      && cl.table[0] in t.events && t.events[cl.table[0]] == Event(s.nextId, 0, now, false, false)
      && EventsStay(s, t, cl.table[0])
      && t.sent == s.sent && t.writes == s.writes && t.replies == s.replies && t.clock == now
  {
    NewIsNew(s, Event(s.nextId, 0, now, false, false));
    RateLimit.ConnectedStay(s, s.nextId);
    hide GatewaySpec.Inv, NewEvent, Pools.PoolInv;
  }

  lemma ReplyEffect(s: Gateway, c: nat, k: nat)
    requires GatewaySpec.Inv(s) && (c, k) in s.sent
    ensures var t := Reply(s, c, k);
      if c in s.clients && (c, k) !in s.replies then
        && OthersStay(s, t, c) && c in t.clients && t.replies == s.replies + [(c, k)]
        && t.clients[c].table == s.clients[c].table - {k} && t.clients[c].packId == s.clients[c].packId
        && t.clients[c].count == s.clients[c].count && t.clients[c].closeFlag == s.clients[c].closeFlag
        && k in s.clients[c].table && s.clients[c].table[k] in s.events && s.clients[c].table[k] in t.events
        && t.events[s.clients[c].table[k]] == s.events[s.clients[c].table[k]].(finishFlag := true)
        && EventsStay(s, t, s.clients[c].table[k])
        && t.msgQ == s.msgQ && t.finQ == s.finQ && t.nextId == s.nextId && t.pool == s.pool
        && t.sent == s.sent && t.writes == s.writes && t.clock == s.clock
      else
        t == s
  {
    ReplyKnown(s, c, k);
    hide GatewaySpec.Inv;
  }

  /** The worker exits on a request that passes the limiter when a ring would fill up, and only then. */
  lemma RequestExits(s: Gateway, c: nat, now: int, len: nat)
    requires GatewaySpec.Inv(s) && c in s.clients && now >= s.clock
    ensures Request(s, c, now, len).None? <==>
      && !s.clients[c].closeFlag && s.clients[c].count < 10
      && (|s.msgQ| + 1 == RING_LEN || |s.finQ| + 1 == RING_LEN)
  {
    hide GatewaySpec.Inv, BlocksOk, MemOk, Request, Pools.PoolInv;
    RequestStages(s, c, now, len);
    if !s.clients[c].closeFlag && s.clients[c].count < 10 {
      var s0 := Counted(s, c, false);
      Ready(s0);
      AcceptMsgIs(s0, c, now);
      if AcceptMsg(s0, c, now).Some? {
        hide AcceptMsg, NewEvent;
        var s1 := AcceptMsg(s0, c, now).value;
        Ready(s1);
        NextPackIsFree(s1, c);
        AcceptFinIs(s1, c, now, len);
      }
    }
  }

  /** A marked client's request does nothing; that of one who made ten already marks it and does nothing else. */
  lemma RefusedEffect(s: Gateway, c: nat, now: int, len: nat)
    requires GatewaySpec.Inv(s) && c in s.clients && now >= s.clock
    requires s.clients[c].closeFlag || s.clients[c].count >= 10
    ensures Request(s, c, now, len).Some?
    ensures var t := Request(s, c, now, len).value;
      && c in t.clients && OthersStay(s, t, c) && t == s.(clients := t.clients)
      && t.clients[c].closeFlag && t.clients[c].packId == s.clients[c].packId
      && t.clients[c].table == s.clients[c].table
      && t.clients[c].count == if s.clients[c].closeFlag then s.clients[c].count else s.clients[c].count + 1
  {
    hide GatewaySpec.Inv, BlocksOk, MemOk, Request, Pools.PoolInv;
    RequestStages(s, c, now, len);
  }

  /**
   An unmarked client with fewer than ten requests counted stays unmarked, and its request goes to a
   server under the next pack_id.
   */
  lemma PassedEffect(s: Gateway, c: nat, now: int, len: nat)
    requires GatewaySpec.Inv(s) && c in s.clients && now >= s.clock && Request(s, c, now, len).Some?
    requires !s.clients[c].closeFlag && s.clients[c].count < 10
    ensures var t, k := Request(s, c, now, len).value, s.clients[c].packId + 1;
      && c in t.clients && OthersStay(s, t, c)
      && !t.clients[c].closeFlag && t.clients[c].count == s.clients[c].count + 1 && t.clients[c].packId == k
      && (c, k) !in s.sent && t.sent == s.sent + {(c, k)}
      && t.writes == s.writes + [Write(c, k, now)] && t.replies == s.replies
      && t.clock == now && t.nextId == s.nextId
  {
    hide GatewaySpec.Inv, BlocksOk, MemOk, Request, Pools.PoolInv;
    RequestStages(s, c, now, len);
    var s0 := Counted(s, c, false);
    Ready(s0);
    AcceptMsgIs(s0, c, now);
    hide AcceptMsg, NewEvent;
    var s1 := AcceptMsg(s0, c, now).value;
    Ready(s1);
    NextPackIsFree(s1, c);
    AcceptFinIs(s1, c, now, len);
    hide AcceptFin;
    NotSentYet(s, c);
  }

  lemma NotSentYet(s: Gateway, c: nat)
    requires GatewaySpec.Inv(s) && c in s.clients
    ensures (c, s.clients[c].packId + 1) !in s.sent
  {
    assert SentOk(s, c, s.clients[c].packId + 1);
  }

  /** What that request leaves in the rings, the client's table, and the events. */
  lemma PassedEvents(s: Gateway, c: nat, now: int, len: nat)
    requires GatewaySpec.Inv(s) && c in s.clients && now >= s.clock && Request(s, c, now, len).Some?
    requires !s.clients[c].closeFlag && s.clients[c].count < 10
    ensures c in Request(s, c, now, len).value.clients
    ensures var t, k := Request(s, c, now, len).value, s.clients[c].packId + 1;
      var was, table := s.clients[c].table, t.clients[c].table;
      && table.Keys == was.Keys + {k} && k !in was && 0 in was && was[0] in s.events && was[0] in t.events
      && t.msgQ == s.msgQ + [table[0]] && t.finQ == s.finQ + [table[k]]
      && (forall j {:trigger table[j]} {:trigger was[j]} | j in was && j != 0 :: table[j] == was[j])
      && table[0] !in s.events && table[k] !in s.events && table[0] != table[k]
      && table[0] in t.events && t.events[table[0]] == Event(c, 0, now, false, false)
      && table[k] in t.events && t.events[table[k]] == RequestEvent(c, k, now, len)
      && t.events[was[0]] == s.events[was[0]].(msgFlag := true)
      && EventsStay(s, t, was[0])
  {
    hide GatewaySpec.Inv, BlocksOk, MemOk, Request, Pools.PoolInv;
    RequestStages(s, c, now, len);
    var s0 := Counted(s, c, false);
    Ready(s0);
    CurrentKnown(s, c);
    AcceptMsgEvents(s0, c, now);
    hide AcceptMsg, AcceptFin, EventsStay, RequestEvent;
    var s1 := AcceptMsg(s0, c, now).value;
    Ready(s1);
    AcceptFinEvents(s1, c, now, len);
    NextPackIsFree(s, c);
    TwoEvents(s, s1, Request(s, c, now, len).value, c, now, len);
  }

  lemma TwoEvents(s: Gateway, s1: Gateway, t: Gateway, c: nat, now: int, len: nat)
    requires c in s.clients && 0 in s.clients[c].table && s.clients[c].table[0] in s.events
    requires s.clients[c].packId + 1 !in s.clients[c].table
    requires c in s1.clients && 0 in s1.clients[c].table && s1.clients[c].packId == s.clients[c].packId
    requires s1.clients[c].table == s.clients[c].table[0 := s1.clients[c].table[0]]
    requires s1.clients[c].table[0] !in s.events
    requires s1.events == s.events[s.clients[c].table[0] := s.events[s.clients[c].table[0]].(msgFlag := true)][
                            s1.clients[c].table[0] := Event(c, 0, now, false, false)]
    requires c in t.clients && s.clients[c].packId + 1 in t.clients[c].table
    requires var k := s.clients[c].packId + 1;
      && t.clients[c].table == s1.clients[c].table[k := t.clients[c].table[k]]
      && t.clients[c].table[k] !in s1.events
      && t.events == s1.events[t.clients[c].table[k] := RequestEvent(c, k, now, len)]
    ensures var k, was, table := s.clients[c].packId + 1, s.clients[c].table, t.clients[c].table;
      && table.Keys == was.Keys + {k} && 0 in was && was[0] in s.events && was[0] in t.events
      && (forall j {:trigger table[j]} {:trigger was[j]} | j in was && j != 0 :: table[j] == was[j])
      && table[0] == s1.clients[c].table[0]
      && table[0] !in s.events && table[k] !in s.events && table[0] != table[k]
      && table[0] in t.events && t.events[table[0]] == Event(c, 0, now, false, false)
      && table[k] in t.events && t.events[table[k]] == RequestEvent(c, k, now, len)
      && t.events[was[0]] == s.events[was[0]].(msgFlag := true)
      && EventsStay(s, t, was[0])
  {
  }

  /** The request record: a new event under the next pack_id. */
  lemma AcceptFinEvents(s: Gateway, c: nat, now: int, len: nat)
    requires GatewaySpec.Inv(s) && c in s.clients && now >= s.clock
    requires Pools.PoolInv(s.pool) && AcceptFin(s, c, now, len).Some?
    ensures var t, k := AcceptFin(s, c, now, len).value, s.clients[c].packId + 1;
      && c in t.clients && k in t.clients[c].table
      && var p := t.clients[c].table[k];
      && p !in s.events && t.msgQ == s.msgQ && t.finQ == s.finQ + [p]
      && t.clients[c].table == s.clients[c].table[k := p]
      && t.events == s.events[p := RequestEvent(c, k, now, len)]
  {
    var k := s.clients[c].packId + 1;
    NextPackIsFree(s, c);
    AcceptFinIs(s, c, now, len);
    hide AcceptFin;
    NewIsNew(s, RequestEvent(c, k, now, len));
    hide GatewaySpec.Inv, NewEvent;
  }

  /** The arrival record: the old current event is flagged, a new one is made. */
  lemma AcceptMsgEvents(s: Gateway, c: nat, now: int)
    requires GatewaySpec.Inv(s) && c in s.clients && 0 in s.clients[c].table && s.clients[c].table[0] in s.events
    requires Pools.PoolInv(s.pool) && AcceptMsg(s, c, now).Some?
    ensures c in AcceptMsg(s, c, now).value.clients
    ensures var t, was := AcceptMsg(s, c, now).value, s.clients[c].table;
      var p := t.clients[c].table[0];
      && p !in s.events && t.msgQ == s.msgQ + [p] && t.finQ == s.finQ
      && t.clients == s.clients[c := s.clients[c].(table := was[0 := p])]
      && t.events == s.events[was[0] := s.events[was[0]].(msgFlag := true)][p := Event(c, 0, now, false, false)]
  {
    var current := s.clients[c].table[0];
    var s0 := s.(events := s.events[current := s.events[current].(msgFlag := true)]);
    var e := Event(c, 0, now, false, false);
    Ready(s);
    MemSame(s, s0);
    AcceptMsgIs(s, c, now);
    hide GatewaySpec.Inv, MemOk, AcceptMsg, NewEvent, Pools.PoolInv;
    EventNotIn(s0, e);
  }

  /** A client that leaves is gone; nothing else changes. */
  lemma DisconnectEffect(s: Gateway, c: nat)
    ensures var t := Disconnect(s, c);
      c !in t.clients && OthersStay(s, t, c) && t == s.(clients := t.clients)
  {
  }

  /** The end of a period: whoever is marked for closing is gone, the others' counts start again. */
  lemma PeriodEffect(s: Gateway, c: nat)
    ensures var t := EmptyCount(s);
      && (c in t.clients <==> c in s.clients && !s.clients[c].closeFlag)
      && (c in t.clients ==> t.clients[c] == s.clients[c].(count := 0, closeFlag := false))
      && t == s.(clients := t.clients)
  {
  }

  /** A timer tick leaves the clients that stay as they were. */
  lemma TickEffect(s: Gateway, now: int, c: nat)
    requires GatewaySpec.Inv(s) && now >= s.clock && Tick(s, now).Some?
    ensures var t := Tick(s, now).value;
      && (c in t.clients <==> c in s.clients && now - LastSeen(s, c) <= 30)
      && (c in t.clients ==> t.clients[c] == s.clients[c])
      && t.sent == s.sent && t.replies == s.replies && t.nextId == s.nextId && t.clock == now
  {
    hide GatewaySpec.Inv, BlocksOk, MsgSweep, FinSweep;
    TickSound(s, now);
    ClockSound(s, now);
    var s0 := s.(clock := now);
    InvBlocks(s0);
    MsgSweepSound(s0);
    FinSweepSound(MsgSweep(s0));
  }

  /**
   A connected client is gone after a call if and only if it left, it was silent for more than 30
   seconds at a tick, or it was marked at the end of a period.
   */
  lemma StepGone(s: Gateway, call: Call, c: nat)
    requires GatewaySpec.Inv(s) && Enabled(s, call) && Step(s, call).Some? && c in s.clients
    ensures c !in Step(s, call).value.clients <==>
      || call == ClientLeaves(c)
      || (call.TimerFires? && call.now - LastSeen(s, c) > 30)
      || (call.PeriodEnds? && s.clients[c].closeFlag)
  {
    hide GatewaySpec.Inv, BlocksOk, Connect, Request, Reply, Tick, LastSeen, Pools.PoolInv;
    match call
    case ClientConnects(now) => ConnectEffect(s, now);
    case ClientSends(d, now, len) => RequestClients(s, d, now, len);
    case ServerReplies(d, k) => ReplyClients(s, d, k);
    case ClientLeaves(d) =>
    case TimerFires(now) => TickEffect(s, now, c);
    case PeriodEnds => PeriodEffect(s, c);
  }

  // ----- what the sweeps leave in the rings

  /** The front event of msg_queue stays: its client does, and it is not older than 30 seconds. */
  ghost predicate Fresh(s: Gateway, t: Gateway, p: Addr) {
    p in s.events && s.events[p].uuid in t.clients && s.clock - s.events[p].arrTime <= 30
  }

  /** The idle sweep frees the events before the first fresh one, and no other. */
  lemma {:induction false} MsgSweepRing(s: Gateway) returns (n: nat)
    requires BlocksOk(s)
    ensures n <= |s.msgQ| && MsgSweep(s).msgQ == s.msgQ[n..]
    ensures forall i {:trigger s.msgQ[i]} | 0 <= i < n :: !Fresh(s, MsgSweep(s), s.msgQ[i])
    ensures n < |s.msgQ| ==> Fresh(s, MsgSweep(s), s.msgQ[n])
    decreases |s.msgQ|
  {
    hide BlocksOk, MemOk, MsgSweep, Pools.Free, Pools.PoolInv;
    if s.msgQ == [] {
      MsgSweepDone(s);
      return 0;
    }
    MsgRound(s);
    MsgSweepKeeps(s);
    var e := s.events[s.msgQ[0]];
    if e.uuid in s.clients && !Idle(s, s.msgQ[0]) {
      return 0;
    }
    var s1 := if e.uuid in s.clients && !e.msgFlag then Disconnect(s, e.uuid) else s;
    var m := MsgSweepRing(PopMsg(s1));
    n := m + 1;
    forall i | 0 <= i < n ensures !Fresh(s, MsgSweep(s), s.msgQ[i]) {
      if i > 0 {
        assert s.msgQ[i] == PopMsg(s1).msgQ[i - 1];
        RingApart(s, 0, i);
      }
    }
  }

  lemma RingApart(s: Gateway, i: nat, j: nat)
    requires BlocksOk(s) && i < j < |s.msgQ|
    ensures s.msgQ[i] != s.msgQ[j]
  {
  }

  /** The front event of fin_queue ends the sweep: a connected client's, not older than 10 seconds. */
  ghost predicate Recent(s: Gateway, p: Addr) {
    p in s.events && s.events[p].uuid in s.clients && s.clock - s.events[p].arrTime <= 10
  }

  /** The events of q whose client is connected and waits for an answer. */
  function Waiting(s: Gateway, q: seq<Addr>): seq<Addr> {
    if q == [] then [] else
      (if q[0] in s.events && s.events[q[0]].uuid in s.clients && !s.events[q[0]].finishFlag then [q[0]] else [])
      + Waiting(s, q[1..])
  }

  lemma {:induction false} WaitingSame(s: Gateway, t: Gateway, q: seq<Addr>)
    requires t.clients == s.clients
    requires forall p {:trigger p in q} | p in q :: p in s.events && p in t.events && t.events[p] == s.events[p]
    ensures Waiting(t, q) == Waiting(s, q)
  {
    if q != [] {
      assert q[0] in q && forall p | p in q[1..] :: p in q;
      WaitingSame(s, t, q[1..]);
    }
  }

  lemma FinApart(s: Gateway, i: nat, j: nat)
    requires BlocksOk(s) && i < j < |s.finQ|
    ensures s.finQ[i] != s.finQ[j] && s.finQ[i] in s.events && s.finQ[j] in s.events
  {
    assert s.finQ[i] in s.finQ && s.finQ[j] in s.finQ;
  }

  /** The sweep of q touched only q: what waits in it was resent, now, the rest is as it was or freed. */
  ghost predicate Swept(s: Gateway, t: Gateway, q: seq<Addr>) {
    forall p {:trigger p in t.events} | p in t.events ::
      p in s.events && t.events[p] == if p in q then s.events[p].(arrTime := s.clock) else s.events[p]
  }

  /**
   The resend sweep takes off fin_queue the events before the first recent one, and no other; those
   that wait for an answer go to the back, in order, and the others are freed.
   */
  lemma {:induction false} FinSweepRing(s: Gateway) returns (n: nat)
    requires BlocksOk(s) && FinSweep(s).Some?
    ensures n <= |s.finQ| && FinSweep(s).value.finQ == s.finQ[n..] + Waiting(s, s.finQ[..n])
    ensures forall i {:trigger s.finQ[i]} | 0 <= i < n :: !Recent(s, s.finQ[i])
    ensures n < |s.finQ| ==> Recent(s, s.finQ[n])
    ensures Swept(s, FinSweep(s).value, s.finQ[..n])
    decreases |s.finQ| + Overdue(s, s.finQ)
  {
    hide BlocksOk, MemOk, FinSweep, Overdue, Swept, Shifted, Waiting, Recent, Pools.Free, Pools.PoolInv;
    if s.finQ == [] {
      FinSweepDone(s);
      FinSweepStays(s);
      return 0;
    }
    FinRound(s);
    FinShifted(s);
    FrontIs(s);
    var e := s.events[s.finQ[0]];
    if e.uuid !in s.clients || (s.clock - e.arrTime > FIN_TIMEOUT && e.finishFlag) {
      n := FinSweepRing(PopFin(s));
      PoppedFront(s, PopFin(s), FinSweep(s).value, n);
      n := n + 1;
    } else if s.clock - e.arrTime > FIN_TIMEOUT {
      n := FinSweepRing(Resend(s));
      ResentFront(s, Resend(s), FinSweep(s).value, n);
      n := n + 1;
    } else {
      FinSweepStays(s);
      return 0;
    }
  }

  lemma FrontIs(s: Gateway)
    requires s.finQ != [] && s.finQ[0] in s.events
    ensures var e := s.events[s.finQ[0]];
      && Waiting(s, [s.finQ[0]]) == (if e.uuid in s.clients && !e.finishFlag then [s.finQ[0]] else [])
      && (Recent(s, s.finQ[0]) <==> e.uuid in s.clients && s.clock - e.arrTime <= 10)
      && (Recent(Resend(s), s.finQ[0]) <==> e.uuid in s.clients)
      && Resend(s).finQ == s.finQ[1..] + [s.finQ[0]]
  {
  }

  lemma FinSweepStays(s: Gateway)
    ensures s.finQ == s.finQ[0..] + Waiting(s, s.finQ[..0]) && Swept(s, s, s.finQ[..0])
  {
  }

  /**
   u is s after one round of the sweep took the front event off, freed it or resent it; the others
   are as they were, one place further on.
   */
  ghost predicate Shifted(s: Gateway, u: Gateway) {
    && s.finQ != [] && u.clients == s.clients && u.clock == s.clock
    && s.finQ[1..] <= u.finQ
    && (forall p {:trigger p in u.events} | p in u.events ::
          p in s.events && u.events[p] == if p == s.finQ[0] then s.events[p].(arrTime := s.clock) else s.events[p])
    && (forall i {:trigger s.finQ[i]} | 0 < i < |s.finQ| ::
          s.finQ[i] != s.finQ[0] && s.finQ[i] in s.events && s.finQ[i] in u.events)
  }

  lemma ShiftedAt(s: Gateway, u: Gateway, i: nat)
    requires Shifted(s, u) && i + 1 < |s.finQ|
    ensures i < |u.finQ| && u.finQ[i] == s.finQ[i + 1] && u.finQ[i] != s.finQ[0]
    ensures u.finQ[i] in s.events && u.finQ[i] in u.events && u.events[u.finQ[i]] == s.events[u.finQ[i]]
    ensures Recent(u, u.finQ[i]) <==> Recent(s, s.finQ[i + 1])
  {
    assert s.finQ[1..][i] == s.finQ[i + 1] && u.finQ[i] == s.finQ[1..][i];
  }

  /** What the sweep of u up to its place m says of s up to the next place. */
  lemma FrontSwept(s: Gateway, u: Gateway, t: Gateway, m: nat)
    requires Shifted(s, u) && m < |s.finQ| && m <= |u.finQ| && Swept(u, t, u.finQ[..m])
    requires u.clients == s.clients
    ensures s.finQ[..m + 1] == [s.finQ[0]] + u.finQ[..m]
    ensures Waiting(s, s.finQ[..m + 1]) == Waiting(s, [s.finQ[0]]) + Waiting(u, u.finQ[..m])
    ensures Swept(s, t, s.finQ[..m + 1])
  {
    hide Recent, Shifted;
    var p := s.finQ[0];
    forall i | 0 <= i < m ensures u.finQ[i] == s.finQ[i + 1] {
      ShiftedAt(s, u, i);
    }
    assert s.finQ[..m + 1] == [p] + u.finQ[..m];
    assert ([p] + u.finQ[..m])[1..] == u.finQ[..m] && [p][1..] == [];
    forall q | q in u.finQ[..m] ensures q in s.events && q in u.events && u.events[q] == s.events[q] && q != p {
      var i :| 0 <= i < m && u.finQ[i] == q;
      ShiftedAt(s, u, i);
    }
    WaitingSame(s, u, u.finQ[..m]);
    SweptLater(s, u, t, m);
  }

  lemma SweptLater(s: Gateway, u: Gateway, t: Gateway, m: nat)
    requires Shifted(s, u) && m < |s.finQ| && m <= |u.finQ| && Swept(u, t, u.finQ[..m])
    requires s.finQ[..m + 1] == [s.finQ[0]] + u.finQ[..m] && s.finQ[0] !in u.finQ[..m]
    ensures Swept(s, t, s.finQ[..m + 1])
  {
    forall q | q in t.events
      ensures q in s.events
      ensures t.events[q] == if q in s.finQ[..m + 1] then s.events[q].(arrTime := s.clock) else s.events[q]
    {
      assert q in u.events && (q in s.finQ[..m + 1] <==> q == s.finQ[0] || q in u.finQ[..m]);
    }
  }

  lemma FinShifted(s: Gateway)
    requires BlocksOk(s) && MemOk(s) && s.finQ != [] && s.finQ[0] in s.events
    ensures Shifted(s, PopFin(s)) && Shifted(s, Resend(s))
  {
    hide BlocksOk, MemOk, Pools.Free, Pools.PoolInv;
    forall i | 0 < i < |s.finQ| ensures s.finQ[i] != s.finQ[0] && s.finQ[i] in s.events {
      FinApart(s, 0, i);
    }
  }

  /** The round freed the front event, and the sweep went on up to place m of what was left. */
  lemma PoppedFront(s: Gateway, u: Gateway, t: Gateway, m: nat)
    requires Shifted(s, u) && s.finQ != [] && u.clients == s.clients && u.finQ == s.finQ[1..]
    requires Waiting(s, [s.finQ[0]]) == [] && !Recent(s, s.finQ[0])
    requires m <= |u.finQ| && t.finQ == u.finQ[m..] + Waiting(u, u.finQ[..m]) && Swept(u, t, u.finQ[..m])
    requires forall i {:trigger u.finQ[i]} | 0 <= i < m :: !Recent(u, u.finQ[i])
    requires m < |u.finQ| ==> Recent(u, u.finQ[m])
    ensures t.finQ == s.finQ[m + 1..] + Waiting(s, s.finQ[..m + 1]) && Swept(s, t, s.finQ[..m + 1])
    ensures forall i {:trigger s.finQ[i]} | 0 <= i < m + 1 :: !Recent(s, s.finQ[i])
    ensures m + 1 < |s.finQ| ==> Recent(s, s.finQ[m + 1])
  {
    hide Recent, Shifted, Swept, Waiting;
    FrontSwept(s, u, t, m);
    FrontRecent(s, u, m);
  }

  lemma FrontRecent(s: Gateway, u: Gateway, m: nat)
    requires Shifted(s, u) && m < |s.finQ| && !Recent(s, s.finQ[0]) && m <= |u.finQ|
    requires forall i {:trigger u.finQ[i]} | 0 <= i < m :: !Recent(u, u.finQ[i])
    requires m + 1 < |s.finQ| && m < |u.finQ| ==> Recent(u, u.finQ[m])
    ensures forall i {:trigger s.finQ[i]} | 0 <= i < m + 1 :: !Recent(s, s.finQ[i])
    ensures m + 1 < |s.finQ| ==> Recent(s, s.finQ[m + 1])
  {
    hide Recent, Shifted;
    forall i | 0 <= i < m + 1 ensures !Recent(s, s.finQ[i]) {
      if i > 0 {
        ShiftedAt(s, u, i - 1);
      }
    }
    if m + 1 < |s.finQ| {
      ShiftedAt(s, u, m);
    }
  }

  /** The round resent the front event; it is recent now, so the sweep ends there at the latest. */
  lemma ResentFront(s: Gateway, u: Gateway, t: Gateway, m: nat)
    requires Shifted(s, u) && s.finQ != [] && u.clients == s.clients && u.finQ == s.finQ[1..] + [s.finQ[0]]
    requires Waiting(s, [s.finQ[0]]) == [s.finQ[0]] && !Recent(s, s.finQ[0]) && Recent(u, s.finQ[0])
    requires m <= |u.finQ| && t.finQ == u.finQ[m..] + Waiting(u, u.finQ[..m]) && Swept(u, t, u.finQ[..m])
    requires forall i {:trigger u.finQ[i]} | 0 <= i < m :: !Recent(u, u.finQ[i])
    requires m < |u.finQ| ==> Recent(u, u.finQ[m])
    ensures m < |s.finQ|
    ensures t.finQ == s.finQ[m + 1..] + Waiting(s, s.finQ[..m + 1]) && Swept(s, t, s.finQ[..m + 1])
    ensures forall i {:trigger s.finQ[i]} | 0 <= i < m + 1 :: !Recent(s, s.finQ[i])
    ensures m + 1 < |s.finQ| ==> Recent(s, s.finQ[m + 1])
  {
    hide Recent, Shifted, Swept, Waiting;
    assert u.finQ[|s.finQ| - 1] == s.finQ[0];
    assert u.finQ[m..] == s.finQ[m + 1..] + [s.finQ[0]];
    FrontSwept(s, u, t, m);
    FrontRecent(s, u, m);
  }

  // ----- the life of one client

  /**
   What a client's own calls, ticks and the ends of periods make of it: whether it is connected, how
   many requests it made in this period, how many were ever passed on, and when it was last heard.
   */
  datatype Life = Life(there: bool, made: nat, passed: nat, heard: int)

  /** One call in the life of client c; next is the id the next connection gets. */
  function Live(l: Life, call: Call, c: nat, next: nat): Life {
    match call
    case ClientConnects(now) =>
      if c == next then Life(true, 0, 0, now) else l
    case ClientSends(d, now, len) =>
      if d != c then l
      else if l.made < 10 then l.(made := l.made + 1, passed := l.passed + 1, heard := now)
      else l.(made := l.made + 1)
    case ServerReplies(d, k) => l
    case ClientLeaves(d) =>
      if d == c then l.(there := false) else l
    case TimerFires(now) =>
      if now - l.heard > 30 then l.(there := false) else l
    case PeriodEnds =>
      if l.made > 10 then l.(there := false) else l.(made := 0)
  }

  function LifeOf(l: Life, calls: seq<Call>, c: nat, next: nat): Life
    decreases |calls|
  {
    if calls == [] then l else
      LifeOf(Live(l, calls[0], c, next), calls[1..], c, if calls[0].ClientConnects? then next + 1 else next)
  }

  /** What a worker knows of client c is its life. */
  ghost predicate Lives(s: Gateway, c: nat, l: Life) {
    && (l.there <==> c in s.clients)
    && (c in s.clients ==>
          && s.clients[c].count == (if l.made > 10 then 11 else l.made)
          && s.clients[c].closeFlag == (l.made > 10)
          && s.clients[c].packId == l.passed
          && LastSeen(s, c) == l.heard)
  }

  lemma RequestLives(s: Gateway, d: nat, now: int, len: nat, c: nat, l: Life)
    requires GatewaySpec.Inv(s) && d in s.clients && now >= s.clock && Request(s, d, now, len).Some? && Lives(s, c, l)
    ensures Lives(Request(s, d, now, len).value, c, Live(l, ClientSends(d, now, len), c, s.nextId))
    ensures Request(s, d, now, len).value.nextId == s.nextId
  {
    hide GatewaySpec.Inv, BlocksOk, Request, LastSeen;
    if s.clients[d].closeFlag || s.clients[d].count >= 10 {
      RefusedEffect(s, d, now, len);
    } else {
      PassedEffect(s, d, now, len);
      assert (d, s.clients[d].packId + 1) in Request(s, d, now, len).value.sent;
    }
    if c in s.clients {
      RequestHears(s, d, now, len, c);
    }
  }

  lemma StepLives(s: Gateway, call: Call, c: nat, l: Life)
    requires GatewaySpec.Inv(s) && Enabled(s, call) && Step(s, call).Some? && Lives(s, c, l)
    ensures Lives(Step(s, call).value, c, Live(l, call, c, s.nextId))
    ensures Step(s, call).value.nextId == if call.ClientConnects? then s.nextId + 1 else s.nextId
  {
    hide GatewaySpec.Inv, BlocksOk, Connect, Request, Reply, Tick, LastSeen, Pools.PoolInv;
    match call
    case ClientConnects(now) =>
      ConnectEffect(s, now);
      if c in Connect(s, now).value.clients {
        ConnectHears(s, now, c);
      }
    case ClientSends(d, now, len) => RequestLives(s, d, now, len, c, l);
    case ServerReplies(d, k) =>
      ReplyEffect(s, d, k);
      if c in s.clients {
        ReplyHears(s, d, k, c);
      }
    case ClientLeaves(d) =>
      if c in Disconnect(s, d).clients {
        LastSeenSame(s, Disconnect(s, d), c);
      }
    case TimerFires(now) =>
      InvBlocks(s);
      TickEffect(s, now, c);
      if c in Tick(s, now).value.clients {
        TickHears(s, now, c);
      }
    case PeriodEnds =>
      PeriodEffect(s, c);
      if c in EmptyCount(s).clients {
        LastSeenSame(s, EmptyCount(s), c);
      }
  }

  lemma {:induction false} RunLives(s: Gateway, calls: seq<Call>, t: Gateway, c: nat, l: Life)
    requires GatewaySpec.Inv(s) && Reaches(s, calls, t) && Lives(s, c, l)
    ensures Lives(t, c, LifeOf(l, calls, c, s.nextId))
    decreases |calls|
  {
    hide GatewaySpec.Inv, BlocksOk, MemOk, Lives, Live, Enabled, Step;
    if calls != [] {
      StepSound(s, calls[0]);
      StepLives(s, calls[0], c, l);
      RunLives(Step(s, calls[0]).value, calls[1..], t, c, Live(l, calls[0], c, s.nextId));
    }
  }

  /** The life of client c in a run from a worker's start. */
  function Told(calls: seq<Call>, c: nat): Life {
    LifeOf(Life(false, 0, 0, 0), calls, c, 0)
  }

  /**
   After every run from a worker's start, whether a client is connected, its count, its mark, its
   pack_id, when it was last heard, and which of its requests went to a server are what the calls say
   of that client alone, whatever the other clients did.
   */
  lemma RunLife(start: Addr, garbage: bool, t0: int, calls: seq<Call>, t: Gateway, c: nat)
    requires NULL < start && Reachable(start, garbage, t0, calls, t)
    ensures var l := Told(calls, c);
      && (c in t.clients <==> l.there)
      && (c in t.clients ==>
            && t.clients[c].count == (if l.made > 10 then 11 else l.made)
            && t.clients[c].closeFlag == (l.made > 10)
            && t.clients[c].packId == l.passed
            && LastSeen(t, c) == l.heard
            && forall k: nat {:trigger (c, k) in t.sent} :: (c, k) in t.sent <==> 1 <= k <= l.passed)
  {
    StartSound(start, garbage, t0);
    var s := Start(start, garbage, t0);
    RunLives(s, calls, t, c, Life(false, 0, 0, 0));
    RunSound(s, calls, t);
    if c in t.clients {
      forall k: nat ensures (c, k) in t.sent <==> 1 <= k <= t.clients[c].packId {
        assert SentOk(t, c, k);
      }
    }
  }

  /**
   The first ten requests a client makes in a period are passed on, each under the next pack_id, and
   no other is.
   */
  lemma RunFirstTen(start: Addr, garbage: bool, t0: int, calls: seq<Call>, s: Gateway, c: nat, now: int, len: nat)
    requires NULL < start && Reachable(start, garbage, t0, calls, s) && GatewaySpec.Inv(s)
    requires Enabled(s, ClientSends(c, now, len)) && Step(s, ClientSends(c, now, len)).Some?
    ensures var t, l := Step(s, ClientSends(c, now, len)).value, Told(calls, c);
      && t.sent == s.sent + (if l.made < 10 then {(c, l.passed + 1)} else {})
      && t.writes == s.writes + (if l.made < 10 then [Write(c, l.passed + 1, now)] else [])
      && (l.made < 10 ==> (c, l.passed + 1) !in s.sent)
  {
    hide GatewaySpec.Inv, BlocksOk, Request, LastSeen, Reachable;
    RunLife(start, garbage, t0, calls, s, c);
    if s.clients[c].closeFlag || s.clients[c].count >= 10 {
      RefusedEffect(s, c, now, len);
    } else {
      PassedEffect(s, c, now, len);
    }
  }

  /**
   After every run, a call takes a connected client away if and only if the client leaves, it is a
   tick and the client was last heard more than 30 seconds ago, or it is the end of a period in which
   the client made an eleventh request.
   */
  lemma RunGone(start: Addr, garbage: bool, t0: int, calls: seq<Call>, s: Gateway, call: Call, c: nat)
    requires NULL < start && Reachable(start, garbage, t0, calls, s) && GatewaySpec.Inv(s)
    requires Enabled(s, call) && Step(s, call).Some? && c in s.clients
    ensures c !in Step(s, call).value.clients <==>
      || call == ClientLeaves(c)
      || (call.TimerFires? && call.now - Told(calls, c).heard > 30)
      || (call.PeriodEnds? && Told(calls, c).made >= 11)
  {
    hide GatewaySpec.Inv, BlocksOk, Step, LastSeen, Reachable;
    RunLife(start, garbage, t0, calls, s, c);
    StepGone(s, call, c);
  }
}
