/**
 The gateway worker of pool.h: its static rings, maps and pool, and the callbacks that change
 them.  Each callback is proved to do what GatewaySpec says, or to exit where GatewaySpec does.
 */
module GatewayWorker {
  import opened Words
  import opened Options
  import opened MemoryPools
  import opened GatewaySpec
  import EventText
  import GatewayRuns
  import Pools
  import RateLimit

  method NextIndex(i: nat) returns (j: nat)
    requires i < RING_LEN
    ensures j == if i + 1 == RING_LEN then 0 else i + 1
  {
    j := (i + 1) % RING_LEN;
  }

  /** A ring of pool pointers: msg_queue or fin_queue with its front and back. */
  class Ring {
    const buf: array<Addr>
    var front: nat
    var back: nat

    ghost predicate Valid()
      reads this
    {
      buf.Length == RING_LEN && front < RING_LEN && back < RING_LEN
    }

    ghost function Contents(): seq<Addr>
      requires Valid()
      reads this, buf
    {
      if front <= back then buf[front..back] else buf[front..] + buf[..back]
    }

    constructor ()
      ensures Valid() && Contents() == [] && fresh(buf)
    {
      buf := new Addr[RING_LEN](_ => NULL);
      front, back := 0, 0;
    }

    /** Store at the back; a ring filled up to its last place reports full and must not be used again. */
    method Push(x: Addr) returns (full: bool)
      requires Valid()
      modifies this, buf
      ensures Valid() && full == (|old(Contents())| + 1 == RING_LEN)
      ensures !full ==> Contents() == old(Contents()) + [x]
    {
      buf[back] := x;
      back := NextIndex(back);
      full := back == front;
    }

    method Peek() returns (x: Addr)
      requires Valid() && front != back
      ensures Contents() != [] && x == Contents()[0]
    {
      x := buf[front];
    }

    method Pop()
      requires Valid() && front != back
      modifies this
      ensures Valid() && old(Contents()) != [] && Contents() == old(Contents())[1..]
    {
      front := NextIndex(front);
    }
  }

  class Worker {
    const msg_queue: Ring
    const fin_queue: Ring
    const mp: MemoryPool
    var events: map<Addr, Event>
    var client_map: map<nat, Client>
    var client_id: nat
    ghost var clock: int
    ghost var sent: set<(nat, nat)>
    ghost var writes: seq<Write>
    ghost var replies: seq<(nat, nat)>

    ghost predicate Shaped()
      reads this, msg_queue, fin_queue, mp, mp.mlist
    {
      && msg_queue != fin_queue && msg_queue.buf != fin_queue.buf
      && msg_queue.Valid() && fin_queue.Valid() && mp.Valid()
    }

    ghost function State(): Gateway
      requires Shaped()
      reads this, msg_queue, msg_queue.buf, fin_queue, fin_queue.buf, mp, mp.mlist
    {
      Gateway(mp.State(), events, client_map, client_id, msg_queue.Contents(), fin_queue.Contents(),
              clock, sent, writes, replies)
    }

    ghost predicate Valid()
      reads this, msg_queue, msg_queue.buf, fin_queue, fin_queue.buf, mp, mp.mlist
    {
      Shaped() && GatewaySpec.Inv(State())
    }

    /** Blocks and rings in step: all that the timer relies on. */
    ghost predicate Running()
      reads this, msg_queue, msg_queue.buf, fin_queue, fin_queue.buf, mp, mp.mlist
    {
      Shaped() && BlocksOk(State())
    }

    constructor (start: Addr, mem: Mem, garbage: bool, now: int)
      requires NULL < start
      ensures Valid() && State() == GatewayRuns.Start(start, garbage, now)
    {
      hide GatewaySpec.Inv, MemoryPool.Valid, Pools.Init;
      msg_queue := new Ring();
      fin_queue := new Ring();
      mp := new MemoryPool.Init(MAX_SIZE, POOL_SIZE, start, mem, garbage);
      events, client_map, client_id := map[], map[], 0;
      clock, sent, writes, replies := now, {}, [], [];
      new;
      GatewayRuns.StartSound(start, garbage, now);
    }

    /** Draw an event from the pool and fill it in. */
    method NewEvent(e: Event, grant: Addr, grantMem: Mem) returns (p: Addr)
      requires Shaped() && MemOk(State()) && |State().msgQ| < RING_LEN && |State().finQ| < RING_LEN
      requires Pools.GrantOk(State().pool, grant)
      modifies this`events, mp, mp.mlist
      ensures Shaped() && mp.mlist == old(mp.mlist)
      ensures (State(), p) == GatewaySpec.NewEvent(old(State()), e)
    {
      EventFits(State(), grant);
      EventFits(State(), NULL);
      p := mp.MemoryPoolAlloc(EVENT_SIZE, grant, grantMem);
      events := events[p := e];
    }

    method FreeEvent(p: Addr)
      requires Shaped() && Pools.IsLive(State().pool, p)
      modifies this`events, mp.mlist
      ensures Shaped() && State() == GatewaySpec.FreeEvent(old(State()), p)
    {
      hide MemoryPool.Valid, Pools.Free, Pools.PoolInv, Pools.IsLive;
      ReturnToPool(mp, p);
      events := events - {p};
    }

    /** Append to msg_queue; once it reports full the process exits. */
    method PushMsg(p: Addr) returns (full: bool)
      requires Shaped()
      modifies msg_queue, msg_queue.buf
      ensures Shaped() && full == (|old(State()).msgQ| + 1 == RING_LEN)
      ensures !full ==> State() == old(State()).(msgQ := old(State()).msgQ + [p])
    {
      hide MemoryPool.Valid;
      full := msg_queue.Push(p);
    }

    method PushFin(p: Addr) returns (full: bool)
      requires Shaped()
      modifies fin_queue, fin_queue.buf
      ensures Shaped() && full == (|old(State()).finQ| + 1 == RING_LEN)
      ensures !full ==> State() == old(State()).(finQ := old(State()).finQ + [p])
    {
      hide MemoryPool.Valid;
      full := fin_queue.Push(p);
    }

    /** A client's entry of client_map is written; the clock was read as now. */
    method SetClient(c: nat, client: Client, now: int)
      requires Shaped()
      modifies this`client_map, this`clock
      ensures Shaped() && State() == old(State()).(clients := old(State()).clients[c := client], clock := now)
    {
      client_map, clock := client_map[c := client], now;
    }

    method SetEvent(p: Addr, e: Event)
      requires Shaped()
      modifies this`events
      ensures Shaped() && State() == old(State()).(events := old(State()).events[p := e])
    {
      events := events[p := e];
    }

    /** A client as it connects: no request counted, none numbered, none pending, not marked for closing. */
    predicate IsNew(client: Client) {
      client.count == 0 && !client.closeFlag && client.packId == 0 && client.table.Keys == {0}
    }

    /** The new client joins client_map, under the next id. */
    method Admit(client: Client, now: int)
      requires Shaped()
      modifies this`client_map, this`client_id, this`clock
      ensures Shaped() && client_id == old(client_id) + 1 && client_map == old(client_map)[old(client_id) := client]
      ensures State() == old(State()).(clients := client_map, nextId := client_id, clock := now)
    {
      SetClient(client_id, client, now);
      client_id := client_id + 1;
    }

    /** pipe_event_CallBack, case 1: a client that passed the blacklist. */
    method ClientConnects(now: int, grant: Addr, grantMem: Mem) returns (exited: bool)
      requires Valid() && now >= clock && Pools.GrantOk(State().pool, grant)
      modifies this, msg_queue, msg_queue.buf, mp, mp.mlist
      ensures exited == Connect(old(State()), now).None?
      ensures !exited ==> Valid() && State() == Connect(old(State()), now).value
      ensures !exited ==> old(client_id) !in old(client_map) && client_id == old(client_id) + 1
      ensures !exited ==> client_map.Keys == old(client_map).Keys + {old(client_id)}
      ensures !exited ==>
        forall c {:trigger client_map[c]} | c in old(client_map) :: client_map[c] == old(client_map)[c]
      ensures !exited ==> IsNew(client_map[old(client_id)])
    {
      hide GatewaySpec.Inv, GatewaySpec.NewEvent, MemOk, MemoryPool.Valid, Pools.PoolInv, Pools.GrantOk;
      ghost var s := State();
      Ready(s);
      var p := NewEvent(Event(client_id, 0, now, false, false), grant, grantMem);
      exited := PushMsg(p);
      if exited {
        return;
      }
      Admit(Client(0, false, 0, map[0 := p]), now);
      ConnectSound(s, now);
      RateLimit.ConnectedStay(s, s.nextId);
    }

    /** current_limit: at most REQUESTS_PER_PERIOD requests a period; one more marks the client for closing. */
    method CurrentLimit(c: nat) returns (ok: bool)
      requires Shaped() && c in client_map
      modifies this`client_map
      ensures Shaped() && ok == (old(client_map)[c].count < REQUESTS_PER_PERIOD)
      ensures State() == old(State()).(clients := client_map)
      ensures client_map.Keys == old(client_map).Keys
      ensures forall d {:trigger client_map[d]} | d in client_map && d != c :: client_map[d] == old(client_map)[d]
      ensures client_map[c].count == old(client_map)[c].count + 1
      ensures client_map[c].closeFlag == (!ok || old(client_map)[c].closeFlag)
      ensures client_map[c].packId == old(client_map)[c].packId && client_map[c].table == old(client_map)[c].table
    {
      hide MemoryPool.Valid;
      var client := client_map[c];
      ok := client.count < REQUESTS_PER_PERIOD;
      client_map := client_map[c := client.(count := client.count + 1)];
      if !ok {
        client_map := client_map[c := client_map[c].(closeFlag := true)];
      }
    }

    /** Lines 663-677. */
    method RecordArrival(c: nat, now: int, grant: Addr, grantMem: Mem) returns (exited: bool)
      requires Valid() && c in client_map && now >= clock && Pools.GrantOk(State().pool, grant)
      requires 0 in client_map[c].table && client_map[c].table[0] in events
      modifies this, msg_queue, msg_queue.buf, mp, mp.mlist
      ensures exited == AcceptMsg(old(State()), c, now).None?
      ensures !exited ==> Valid() && State() == AcceptMsg(old(State()), c, now).value
      ensures !exited ==> c in client_map && clock == now
      ensures mp.mlist == old(mp.mlist)
    {
      hide GatewaySpec.Inv, GatewaySpec.NewEvent, MemOk, MemoryPool.Valid, Pools.PoolInv, Pools.GrantOk;
      ghost var s := State();
      Ready(s);
      var client := client_map[c];
      var current := client.table[0];
      SetEvent(current, events[current].(msgFlag := true));
      MemSame(s, State());
      AcceptMsgIs(s, c, now);
      AcceptMsgReady(s, c, now);
      hide AcceptMsg;
      var p := NewEvent(Event(c, 0, now, false, false), grant, grantMem);
      SetClient(c, client.(table := client.table[0 := p]), now);
      exited := PushMsg(p);
      if exited {
        return;
      }
      assert State() == AcceptMsg(s, c, now).value;
    }

    /** Lines 647 and 679-690.  text holds the len bytes for the server and their NUL, as words. */
    method RecordRequest(c: nat, now: int, text: seq<nat>, len: nat, grant: Addr, grantMem: Mem) returns (exited: bool)
      requires Valid() && c in client_map && now >= clock && Pools.GrantOk(State().pool, grant)
      requires |text| == EventText.TextWords(len) && len <= 1047
      modifies this, fin_queue, fin_queue.buf, mp, mp.mlist
      ensures exited == AcceptFin(old(State()), c, now, len).None?
      ensures !exited ==> Shaped() && State() == AcceptFin(old(State()), c, now, len).value
      ensures !exited && KeepsFlag(len) ==> Valid()
    {
      hide GatewaySpec.Inv, GatewaySpec.NewEvent, MemOk, MemoryPool.Valid, Pools.PoolInv, Pools.GrantOk;
      hide BlocksOk, RequestEvent, KeepsFlag, EventText.TextWords;
      ghost var s := State();
      Ready(s);
      var k := client_map[c].packId + 1;
      NextPackIsFree(s, c);
      AcceptFinIs(s, c, now, len);
      AcceptFinReady(s, c, now, len);
      hide AcceptFin;
      var p := NewRequest(RequestEvent(c, k, now, len), text, len, grant, grantMem);
      TablePending(c, k, p, now);
      exited := PushFin(p);
      if exited {
        return;
      }
      LogRequest(c, k, now);
      assert State() == AcceptFin(s, c, now, len).value;
    }

    /** An event for a request, with its text in it. */
    method NewRequest(e: Event, text: seq<nat>, len: nat, grant: Addr, grantMem: Mem) returns (p: Addr)
      requires Shaped() && MemOk(State()) && |State().msgQ| < RING_LEN && |State().finQ| < RING_LEN
      requires Pools.GrantOk(State().pool, grant)
      requires |text| == EventText.TextWords(len) && len <= 1047
      modifies this`events, mp, mp.mlist
      ensures Shaped() && mp.mlist == old(mp.mlist)
      ensures (State(), p) == GatewaySpec.NewEvent(old(State()), e)
    {
      hide GatewaySpec.NewEvent, MemOk, MemoryPool.Valid, Pools.PoolInv, Pools.GrantOk;
      ghost var s := State();
      p := NewEvent(e, grant, grantMem);
      CopyText(p, text, len, s, e);
    }

    /** strcpy into a new event; it stays inside the event's block. */
    method CopyText(p: Addr, text: seq<nat>, len: nat, ghost s: Gateway, ghost e: Event)
      requires Shaped() && MemOk(s) && |s.msgQ| < RING_LEN && |s.finQ| < RING_LEN
      requires |text| == EventText.TextWords(len) && len <= 1047
      requires mp.State() == GatewaySpec.NewEvent(s, e).0.pool && p == GatewaySpec.NewEvent(s, e).1
      modifies mp.mlist
      ensures Shaped() && State() == old(State())
    {
      NewEventPool(s, e);
      EventText.TextFitsExact(mp.State().arenas[0], p - HEADER, len);
      hide MemoryPool.Valid, Pools.PoolInv, MemOk;
      mp.StoreWords(0, p, EventText.C_INFO, text);
    }

    /** map::insert keeps an entry that is there; pack_ids are new. */
    method TablePending(c: nat, k: nat, p: Addr, now: int)
      requires Shaped() && c in client_map && k !in client_map[c].table
      modifies this`client_map, this`clock
      ensures Shaped()
      ensures var client := old(client_map)[c];
        State() == old(State()).(
          clients := old(State()).clients[c := client.(packId := k, table := client.table[k := p])], clock := now)
    {
      var client := client_map[c].(packId := k);
      if k !in client.table {
        client := client.(table := client.table[k := p]);
      }
      SetClient(c, client, now);
    }

    /** A request is passed on for the first time. */
    ghost method LogRequest(c: nat, k: nat, now: int)
      requires Shaped()
      modifies this`sent, this`writes
      ensures Shaped()
      ensures State() == old(State()).(
        sent := old(State()).sent + {(c, k)}, writes := old(State()).writes + [Write(c, k, now)])
    {
      sent, writes := sent + {(c, k)}, writes + [Write(c, k, now)];
    }

    /** A request is written to a server. */
    ghost method LogWrite(c: nat, k: nat, now: int)
      requires Shaped()
      modifies this`writes
      ensures Shaped() && State() == old(State()).(writes := old(State()).writes + [Write(c, k, now)])
    {
      writes := writes + [Write(c, k, now)];
    }

    /** client_socket_read_cb, for one complete message that parses. */
    method ClientSends(c: nat, now: int, text: seq<nat>, len: nat, grant: Addr, grantMem: Mem) returns (exited: bool)
      requires Valid() && c in client_map && now >= clock && Pools.GrantOk(State().pool, grant)
      requires |text| == EventText.TextWords(len) && len <= 1047
      modifies this, msg_queue, msg_queue.buf, fin_queue, fin_queue.buf, mp, mp.mlist
      ensures exited == Request(old(State()), c, now, len).None?
      ensures !exited ==> Shaped() && State() == Request(old(State()), c, now, len).value
      ensures !exited && KeepsFlag(len) ==> Valid()
    {
      hide GatewaySpec.Inv, GatewaySpec.NewEvent, AcceptMsg, AcceptFin, Request, MemoryPool.Valid, Pools.GrantOk;
      ghost var s := State();
      RequestStages(s, c, now, len);
      if client_map[c].closeFlag {
        return false;
      }
      var allowed := CurrentLimit(c);
      CountedSound(s, c, !allowed);
      assert client_map == Counted(s, c, !allowed).clients;
      if !allowed {
        return false;
      }
      ghost var s0 := State();
      CurrentKnown(s0, c);
      exited := RecordArrival(c, now, grant, grantMem);
      if exited {
        return;
      }
      AcceptMsgLegal(s0, c, now, grant);
      exited := RecordRequest(c, now, text, len, grant, grantMem);
    }

    /** work_server_socket_read_cb, for one complete message that parses; tells whether it was passed back. */
    method ServerReplies(c: nat, k: nat) returns (forwarded: bool)
      requires Valid() && (c, k) in sent
      modifies this
      ensures Valid() && State() == Reply(old(State()), c, k)
      ensures forwarded == (c in old(client_map) && (c, k) !in old(replies))
    {
      hide GatewaySpec.Inv, MemoryPool.Valid;
      ghost var s := State();
      ReplySound(s, c, k);
      ReplyKnown(s, c, k);
      forwarded := false;
      if c !in client_map {
        return;
      }
      if k !in client_map[c].table {
        return;
      }
      var client := client_map[c];
      var p := client.table[k];
      forwarded := true;
      events := events[p := events[p].(finishFlag := true)];
      client_map := client_map[c := client.(table := client.table - {k})];
      replies := replies + [(c, k)];
    }

    /** client_event_cb. */
    method ClientLeaves(c: nat)
      requires Valid() && c in client_map
      modifies this`client_map
      ensures Valid() && State() == Disconnect(old(State()), c)
    {
      DisconnectSound(State(), c);
      client_map := client_map - {c};
    }

    /** empty_count_cb: erase the clients flagged for closing, reset the counters of the others. */
    method PeriodEnds()
      requires Valid()
      modifies this`client_map
      ensures Valid() && State() == EmptyCount(old(State()))
    {
      EmptyCountSound(State());
      client_map := map c | c in client_map && !client_map[c].closeFlag :: client_map[c].(count := 0);
    }

    method FreeFrontMsg(p: Addr)
      requires Shaped() && MemOk(State()) && State().msgQ != [] && p == State().msgQ[0] && p in events
      requires msg_queue.front != msg_queue.back
      modifies this`events, msg_queue, mp.mlist
      ensures Shaped() && State() == PopMsg(old(State()))
    {
      hide MemOk, MemoryPool.Valid, Pools.Free, Pools.PoolInv, Pools.IsLive;
      EventLive(State(), p);
      FreeEvent(p);
      msg_queue.Pop();
    }

    method FreeFrontFin(p: Addr)
      requires Shaped() && MemOk(State()) && State().finQ != [] && p == State().finQ[0] && p in events
      requires fin_queue.front != fin_queue.back
      modifies this`events, fin_queue, mp.mlist
      ensures Shaped() && State() == PopFin(old(State()))
    {
      hide MemOk, MemoryPool.Valid, Pools.Free, Pools.PoolInv, Pools.IsLive;
      EventLive(State(), p);
      FreeEvent(p);
      fin_queue.Pop();
    }

    /** The first loop of check_time_out_cb. */
    method SweepIdle(now: int)
      requires Running() && now == clock
      modifies this`events, this`client_map, msg_queue, mp.mlist
      ensures Running() && State() == MsgSweep(old(State()))
    {
      hide BlocksOk, MemoryPool.Valid, MsgSweep;
      ghost var s := State();
      while msg_queue.back != msg_queue.front
        invariant Running() && clock == now
        invariant MsgSweep(State()) == MsgSweep(s)
        decreases |State().msgQ|
      {
        var more := IdleRound(now);
        if !more {
          return;
        }
      }
      MsgSweepDone(State());
    }

    /** One round of that loop; false when the front event is fresh. */
    method IdleRound(now: int) returns (more: bool)
      requires Running() && now == clock && msg_queue.back != msg_queue.front
      modifies this`events, this`client_map, msg_queue, mp.mlist
      ensures Running() && MsgSweep(State()) == MsgSweep(old(State()))
      ensures if more then |State().msgQ| < |old(State()).msgQ| else MsgSweep(State()) == State()
    {
      hide BlocksOk, MemOk, MemoryPool.Valid, Pools.Free, Pools.PoolInv, Pools.IsLive, PopMsg, MsgSweep;
      ghost var s := State();
      var p := msg_queue.Peek();
      MsgRound(s);
      var e := events[p];
      more := true;
      if e.uuid !in client_map {
        FreeFrontMsg(p);
      } else if now - e.arrTime > MSG_TIMEOUT {
        if !e.msgFlag {
          client_map := client_map - {e.uuid};
        }
        FreeFrontMsg(p);
      } else {
        more := false;
      }
    }

    /** The second loop of check_time_out_cb. */
    method SweepPending(now: int) returns (exited: bool)
      requires Running() && now == clock
      modifies this`events, this`writes, fin_queue, fin_queue.buf, mp.mlist
      ensures exited == FinSweep(old(State())).None?
      ensures !exited ==> Running() && State() == FinSweep(old(State())).value
    {
      hide BlocksOk, MemoryPool.Valid, FinSweep;
      ghost var s := State();
      while fin_queue.back != fin_queue.front
        invariant Running() && clock == now
        invariant FinSweep(State()) == FinSweep(s)
        decreases |State().finQ| + Overdue(State(), State().finQ)
      {
        var more;
        more, exited := PendingRound(now);
        if exited || !more {
          return;
        }
      }
      FinSweepDone(State());
      exited := false;
    }

    /** One round of that loop; more is false when the front event was sent recently. */
    method PendingRound(now: int) returns (more: bool, exited: bool)
      requires Running() && now == clock && fin_queue.back != fin_queue.front
      modifies this`events, this`writes, fin_queue, fin_queue.buf, mp.mlist
      ensures exited ==> FinSweep(old(State())).None?
      ensures !exited ==> Running() && FinSweep(State()) == FinSweep(old(State()))
      ensures !exited && more ==>
        |State().finQ| + Overdue(State(), State().finQ) < |old(State()).finQ| + Overdue(old(State()), old(State()).finQ)
      ensures !exited && !more ==> FinSweep(State()) == Some(State())
    {
      hide BlocksOk, MemOk, MemoryPool.Valid, Pools.Free, Pools.PoolInv, Pools.IsLive, PopFin, FinSweep, Overdue;
      ghost var s := State();
      var p := fin_queue.Peek();
      FinRound(s);
      var e := events[p];
      more, exited := true, false;
      if e.uuid !in client_map {
        FreeFrontFin(p);
      } else if now - e.arrTime > FIN_TIMEOUT {
        if !e.finishFlag {
          exited := ResendFront(p, now);
        } else {
          FreeFrontFin(p);
        }
      } else {
        more := false;
      }
    }

    /** Lines 360-374 and 379. */
    method ResendFront(p: Addr, now: int) returns (exited: bool)
      requires Shaped() && fin_queue.back != fin_queue.front
      requires State().finQ != [] && p == State().finQ[0] && p in events && now == clock
      modifies this`events, this`writes, fin_queue, fin_queue.buf
      ensures exited == (|old(State()).finQ| + 1 == RING_LEN)
      ensures !exited ==> Shaped() && State() == Resend(old(State()))
    {
      ghost var s := State();
      LogWrite(events[p].uuid, events[p].pack, now);
      SetEvent(p, events[p].(arrTime := now));
      exited := PushFin(p);
      if exited {
        return;
      }
      assert State().finQ == s.finQ + [p] && (s.finQ + [p])[1..] == s.finQ[1..] + [p];
      PopFinFront();
    }

    method PopFinFront()
      requires Shaped() && |State().finQ| > 1
      modifies fin_queue
      ensures Shaped() && State() == old(State()).(finQ := old(State()).finQ[1..])
    {
      hide MemoryPool.Valid;
      fin_queue.Pop();
    }

    /** check_time_out_cb; the clock is read once. */
    method TimerFires(now: int) returns (exited: bool)
      requires Running() && now >= clock
      modifies this, msg_queue, fin_queue, fin_queue.buf, mp.mlist
      ensures exited == Tick(old(State()), now).None?
      ensures !exited ==> Running() && State() == Tick(old(State()), now).value
      ensures !exited && old(Valid()) ==> Valid()
    {
      hide BlocksOk, GatewaySpec.Inv, MemoryPool.Valid, MsgSweep, FinSweep;
      ghost var s := State();
      ClockBlocks(s, now);
      clock := now;
      SweepIdle(now);
      exited := SweepPending(now);
      if !exited && GatewaySpec.Inv(s) {
        GatewayRuns.TickSound(s, now);
      }
    }
  }

  method ReturnToPool(mp: MemoryPool, p: Addr)
    requires mp.Valid() && Pools.IsLive(mp.State(), p)
    modifies mp.mlist
    ensures mp.Valid() && mp.State() == Pools.Free(old(mp.State()), p)
  {
    var r := mp.MemoryPoolFree(p);
  }
}
