/**
 What a gateway worker's time fields mean: the arrival time of a client's current event is when it
 connected or was last heard, that of a pending request when it was last written to a server.
 */
module GatewayHistory {
  import opened GatewayRuns
  import opened GatewaySpec
  import opened Words
  import Pools
  import RateLimit

  // ----- each sweep leaves the events of the other ring alone

  /** The events of q are the same in t. */
  ghost predicate SameEvents(s: Gateway, t: Gateway, q: seq<Addr>) {
    forall p {:trigger p in q} | p in q :: p in s.events && p in t.events && t.events[p] == s.events[p]
  }

  lemma RingMembers(s: Gateway, p: Addr)
    requires BlocksOk(s)
    ensures p in s.msgQ || p in s.finQ <==> p in s.events
    ensures !(p in s.msgQ && p in s.finQ)
  {
  }

  lemma {:induction false} MsgSweepKeeps(s: Gateway)
    requires BlocksOk(s)
    ensures MsgSweep(s).writes == s.writes && MsgSweep(s).finQ == s.finQ && MsgSweep(s).clock == s.clock
    ensures MsgSweep(s).sent == s.sent && MsgSweep(s).replies == s.replies
    ensures SameEvents(s, MsgSweep(s), s.finQ)
    ensures forall p {:trigger p in MsgSweep(s).events} | p in MsgSweep(s).events ::
      p in s.events && MsgSweep(s).events[p] == s.events[p]
    ensures forall c {:trigger c in MsgSweep(s).clients} | c in MsgSweep(s).clients ::
      c in s.clients && MsgSweep(s).clients[c] == s.clients[c]
    decreases |s.msgQ|
  {
    hide BlocksOk, MemOk, MsgSweep, Pools.Free, Pools.PoolInv;
    forall p | p in s.finQ ensures p in s.events {
      RingMembers(s, p);
    }
    if s.msgQ != [] {
      MsgRound(s);
      var e := s.events[s.msgQ[0]];
      if e.uuid !in s.clients || Idle(s, s.msgQ[0]) {
        var s1 := if e.uuid in s.clients && !e.msgFlag then Disconnect(s, e.uuid) else s;
        RingMembers(s, s.msgQ[0]);
        MsgSweepKeeps(PopMsg(s1));
      }
    } else {
      MsgSweepDone(s);
    }
  }

  lemma {:induction false} FinSweepKeeps(s: Gateway)
    requires BlocksOk(s) && FinSweep(s).Some?
    ensures FinSweep(s).value.msgQ == s.msgQ && SameEvents(s, FinSweep(s).value, s.msgQ)
    ensures FinSweep(s).value.clients == s.clients
    ensures FinSweep(s).value.sent == s.sent && FinSweep(s).value.replies == s.replies
    ensures FinSweep(s).value.events.Keys <= s.events.Keys
    decreases |s.finQ| + Overdue(s, s.finQ)
  {
    hide BlocksOk, MemOk, FinSweep, Overdue, Pools.Free, Pools.PoolInv;
    forall p | p in s.msgQ ensures p in s.events {
      RingMembers(s, p);
    }
    if s.finQ != [] {
      FinRound(s);
      RingMembers(s, s.finQ[0]);
      var e := s.events[s.finQ[0]];
      if e.uuid !in s.clients || (s.clock - e.arrTime > FIN_TIMEOUT && e.finishFlag) {
        FinSweepKeeps(PopFin(s));
      } else if s.clock - e.arrTime > FIN_TIMEOUT {
        FinSweepKeeps(Resend(s));
      }
    } else {
      FinSweepDone(s);
    }
  }

  // ----- what the resend sweep writes

  /** The connected client's request is unanswered and was last written too long ago. */
  ghost predicate Due(s: Gateway, c: nat, k: nat) {
    c in s.clients && k != 0 && k in s.clients[c].table && s.clock - TimeOf(s, s.clients[c].table[k]) > FIN_TIMEOUT
  }

  /** news are the requests due in s, each written once, now. */
  ghost predicate WritesDue(s: Gateway, news: seq<Write>) {
    && (forall i, j {:trigger news[i], news[j]} | 0 <= i < j < |news| :: news[i] != news[j])
    && (forall w {:trigger w in news} :: w in news <==> w.time == s.clock && Due(s, w.client, w.pack))
  }

  lemma NothingDue(s: Gateway)
    requires GatewaySpec.Inv(s)
    requires s.finQ == [] || (s.finQ[0] in s.events && s.clock - s.events[s.finQ[0]].arrTime <= FIN_TIMEOUT)
    ensures forall c, k {:trigger Due(s, c, k)} :: !Due(s, c, k)
  {
    forall c, k ensures !Due(s, c, k) {
      if c in s.clients && k in s.clients[c].table && k != 0 {
        assert PendingOk(s, c, k);
        RecentFront(s);
      }
    }
  }

  /** Freeing the front event makes no request more or less due. */
  lemma PopKeepsDue(s: Gateway, c: nat, k: nat)
    requires GatewaySpec.Inv(s) && s.finQ != [] && s.finQ[0] in s.events
    requires s.events[s.finQ[0]].uuid !in s.clients || s.events[s.finQ[0]].finishFlag
    ensures Due(PopFin(s), c, k) <==> Due(s, c, k)
  {
    if c in s.clients && k in s.clients[c].table && k != 0 {
      assert PendingOk(s, c, k);
    }
  }

  /** A resend takes its request, which is due, off those that are. */
  lemma ResendTakesDue(s: Gateway, c: nat, k: nat)
    requires GatewaySpec.Inv(s) && s.finQ != [] && s.finQ[0] in s.events
    requires var e := s.events[s.finQ[0]]; e.uuid in s.clients && s.clock - e.arrTime > FIN_TIMEOUT && !e.finishFlag
    ensures var e := s.events[s.finQ[0]];
      Due(s, c, k) <==> Due(Resend(s), c, k) || (c == e.uuid && k == e.pack)
    ensures !Due(Resend(s), s.events[s.finQ[0]].uuid, s.events[s.finQ[0]].pack)
  {
    var p := s.finQ[0];
    var e := s.events[p];
    assert p in s.finQ && TabledOk(s, p) && EventOk(s, p);
    if c in s.clients && k in s.clients[c].table && k != 0 {
      assert PendingOk(s, c, k);
    }
  }

  /** The resend sweep writes to a server exactly the requests that are due, and each of them once. */
  lemma {:induction false} FinSweepWrites(s: Gateway) returns (news: seq<Write>)
    requires GatewaySpec.Inv(s) && FinSweep(s).Some?
    ensures FinSweep(s).value.writes == s.writes + news && WritesDue(s, news)
    decreases |s.finQ| + Overdue(s, s.finQ)
  {
    hide GatewaySpec.Inv, BlocksOk, MemOk, FinSweep, Overdue, Due, Pools.Free, Pools.PoolInv;
    InvBlocks(s);
    if s.finQ == [] {
      FinSweepDone(s);
      NothingDue(s);
      return [];
    }
    FinSweepStep(s);
    var e := s.events[s.finQ[0]];
    if e.uuid !in s.clients || (s.clock - e.arrTime > FIN_TIMEOUT && e.finishFlag) {
      news := FinSweepWrites(PopFin(s));
      forall c, k ensures Due(PopFin(s), c, k) <==> Due(s, c, k) {
        PopKeepsDue(s, c, k);
      }
    } else if s.clock - e.arrTime > FIN_TIMEOUT {
      var rest := FinSweepWrites(Resend(s));
      news := [Write(e.uuid, e.pack, s.clock)] + rest;
      ResentFirst(s, rest);
    } else {
      FinSweepDone(s);
      NothingDue(s);
      return [];
    }
  }

  lemma ResentFirst(s: Gateway, rest: seq<Write>)
    requires GatewaySpec.Inv(s) && s.finQ != [] && s.finQ[0] in s.events
    requires var e := s.events[s.finQ[0]]; e.uuid in s.clients && s.clock - e.arrTime > FIN_TIMEOUT && !e.finishFlag
    requires WritesDue(Resend(s), rest)
    ensures var e := s.events[s.finQ[0]];
      var news := [Write(e.uuid, e.pack, s.clock)] + rest;
      && WritesDue(s, news)
      && s.writes + news == Resend(s).writes + rest
  {
    hide GatewaySpec.Inv, Due;
    var e := s.events[s.finQ[0]];
    var news := [Write(e.uuid, e.pack, s.clock)] + rest;
    ResendTakesDue(s, e.uuid, e.pack);
    forall w ensures w in news <==> w.time == s.clock && Due(s, w.client, w.pack) {
      ResendTakesDue(s, w.client, w.pack);
      assert w in news <==> w == news[0] || w in rest;
    }
    forall i, j | 0 <= i < j < |news| ensures news[i] != news[j] {
      assert news[j] == rest[j - 1] && news[j] in rest;
    }
  }

  // ----- when requests were written

  /** The last time request k of client c was written to a server. */
  ghost predicate LastWrite(writes: seq<Write>, c: nat, k: nat, time: int) {
    && Write(c, k, time) in writes
    && forall w {:trigger w in writes} | w in writes && w.client == c && w.pack == k :: w.time <= time
  }

  ghost predicate PendingWritten(s: Gateway, c: nat, k: nat)
    requires c in s.clients && k in s.clients[c].table
  {
    LastWrite(s.writes, c, k, TimeOf(s, s.clients[c].table[k]))
  }

  /** The arrival time of a pending request is when it was last written. */
  ghost predicate WritesOk(s: Gateway) {
    && (forall w {:trigger w in s.writes} | w in s.writes :: (w.client, w.pack) in s.sent && w.time <= s.clock)
    && (forall c, k {:trigger PendingWritten(s, c, k)} | c in s.clients && k in s.clients[c].table && k != 0 ::
          PendingWritten(s, c, k))
  }

  /** Nothing is written, no request is added, and the pending events keep their times. */
  lemma WritesSame(s: Gateway, t: Gateway)
    requires WritesOk(s) && t.writes == s.writes && s.sent <= t.sent && t.clock >= s.clock
    requires forall c, k | c in t.clients && k in t.clients[c].table && k != 0 ::
      && c in s.clients && k in s.clients[c].table && t.clients[c].table[k] == s.clients[c].table[k]
      && TimeOf(t, t.clients[c].table[k]) == TimeOf(s, s.clients[c].table[k])
    ensures WritesOk(t)
  {
    forall c, k | c in t.clients && k in t.clients[c].table && k != 0 ensures PendingWritten(t, c, k) {
      assert PendingWritten(s, c, k);
    }
  }

  lemma PendingEvent(s: Gateway, c: nat, k: nat)
    requires GatewaySpec.Inv(s) && c in s.clients && k in s.clients[c].table && k != 0
    ensures s.clients[c].table[k] in s.events && s.clients[c].table[k] in s.finQ
    ensures 0 in s.clients[c].table && s.clients[c].table[0] in s.msgQ && s.clients[c].table[0] != s.clients[c].table[k]
  {
    assert PendingOk(s, c, k) && CurrentOk(s, c);
  }

  lemma NewIsNew(s: Gateway, e: Event)
    requires GatewaySpec.Inv(s)
    ensures Pools.PoolInv(s.pool) && NewEvent(s, e).1 !in s.events
    ensures NewEvent(s, e).0.events == s.events[NewEvent(s, e).1 := e]
  {
    Ready(s);
    EventNotIn(s, e);
  }

  lemma ConnectWrites(s: Gateway, now: int)
    requires GatewaySpec.Inv(s) && WritesOk(s) && now >= s.clock && Connect(s, now).Some?
    ensures WritesOk(Connect(s, now).value)
  {
    NewIsNew(s, Event(s.nextId, 0, now, false, false));
    hide GatewaySpec.Inv, WritesOk, NewEvent, Pools.PoolInv;
    var t := Connect(s, now).value;
    forall c, k | c in t.clients && k in t.clients[c].table && k != 0
      ensures c in s.clients && k in s.clients[c].table && t.clients[c].table[k] == s.clients[c].table[k]
      ensures TimeOf(t, t.clients[c].table[k]) == TimeOf(s, s.clients[c].table[k])
    {
      PendingEvent(s, c, k);
    }
    WritesSame(s, t);
  }

  /** The arrival record changes no time of an event there was. */
  lemma AcceptMsgTimes(s: Gateway, c: nat, now: int)
    requires GatewaySpec.Inv(s) && c in s.clients && 0 in s.clients[c].table && s.clients[c].table[0] in s.events
    requires Pools.PoolInv(s.pool) && AcceptMsg(s, c, now).Some?
    ensures var t := AcceptMsg(s, c, now).value;
      && c in t.clients && 0 in t.clients[c].table
      && t.writes == s.writes && t.sent == s.sent && t.clock == now && t.nextId == s.nextId
      && (forall p {:trigger TimeOf(t, p)} | p in s.events ::
            TimeOf(t, p) == TimeOf(s, p) && p in t.events && t.events[p].uuid == s.events[p].uuid)
      && t.msgQ == s.msgQ + [t.clients[c].table[0]] && t.finQ == s.finQ
      && TimeOf(t, t.clients[c].table[0]) == now
      && t.clients == s.clients[c := s.clients[c].(table := s.clients[c].table[0 := t.clients[c].table[0]])]
  {
    var current := s.clients[c].table[0];
    var s0 := s.(events := s.events[current := s.events[current].(msgFlag := true)]);
    var e := Event(c, 0, now, false, false);
    Ready(s);
    MemSame(s, s0);
    AcceptMsgIs(s, c, now);
    hide GatewaySpec.Inv, MemOk, AcceptMsg, NewEvent, Pools.PoolInv;
    EventNotIn(s0, e);
  }

  lemma EventNotIn(s: Gateway, e: Event)
    requires MemOk(s) && |s.msgQ| < RING_LEN && |s.finQ| < RING_LEN
    ensures NewEvent(s, e).1 !in s.events
    ensures NewEvent(s, e).0.events == s.events[NewEvent(s, e).1 := e]
  {
    hide NewEvent, Pools.PoolInv;
    NewEventPool(s, e);
  }

  lemma AcceptMsgWrites(s: Gateway, c: nat, now: int)
    requires GatewaySpec.Inv(s) && WritesOk(s) && now >= s.clock && c in s.clients
    requires 0 in s.clients[c].table && s.clients[c].table[0] in s.events
    requires Pools.PoolInv(s.pool) && AcceptMsg(s, c, now).Some?
    ensures WritesOk(AcceptMsg(s, c, now).value)
  {
    hide GatewaySpec.Inv, WritesOk, AcceptMsg, TimeOf;
    AcceptMsgTimes(s, c, now);
    var t := AcceptMsg(s, c, now).value;
    forall d, k | d in t.clients && k in t.clients[d].table && k != 0
      ensures d in s.clients && k in s.clients[d].table && t.clients[d].table[k] == s.clients[d].table[k]
      ensures TimeOf(t, t.clients[d].table[k]) == TimeOf(s, s.clients[d].table[k])
    {
      PendingEvent(s, d, k);
    }
    WritesSame(s, t);
  }

  lemma AcceptFinWrites(s: Gateway, c: nat, now: int, len: nat)
    requires GatewaySpec.Inv(s) && WritesOk(s) && now >= s.clock && c in s.clients
    requires Pools.PoolInv(s.pool) && AcceptFin(s, c, now, len).Some?
    ensures WritesOk(AcceptFin(s, c, now, len).value)
  {
    var k := s.clients[c].packId + 1;
    NextPackIsFree(s, c);
    AcceptFinIs(s, c, now, len);
    NewIsNew(s, RequestEvent(c, k, now, len));
    assert SentOk(s, c, k);
    hide GatewaySpec.Inv, NewEvent, AcceptFin, Pools.PoolInv;
    var t := AcceptFin(s, c, now, len).value;
    forall d, j | d in t.clients && j in t.clients[d].table && j != 0 ensures PendingWritten(t, d, j) {
      if d != c || j != k {
        PendingEvent(s, d, j);
        assert PendingWritten(s, d, j);
        WriteOther(s.writes, Write(c, k, now), d, j, TimeOf(s, s.clients[d].table[j]));
      }
    }
  }

  lemma WriteOther(writes: seq<Write>, w: Write, c: nat, k: nat, time: int)
    requires LastWrite(writes, c, k, time) && (w.client != c || w.pack != k)
    ensures LastWrite(writes + [w], c, k, time)
  {
  }

  lemma RequestWrites(s: Gateway, c: nat, now: int, len: nat)
    requires GatewaySpec.Inv(s) && WritesOk(s) && now >= s.clock && c in s.clients && Request(s, c, now, len).Some?
    ensures WritesOk(Request(s, c, now, len).value)
  {
    hide GatewaySpec.Inv, Request, WritesOk;
    RequestStages(s, c, now, len);
    var cl := s.clients[c];
    if !cl.closeFlag {
      var s0 := Counted(s, c, cl.count >= REQUESTS_PER_PERIOD);
      CountedSound(s, c, cl.count >= REQUESTS_PER_PERIOD);
      WritesSame(s, s0);
      if cl.count < REQUESTS_PER_PERIOD {
        Ready(s0);
        AcceptMsgWrites(s0, c, now);
        var s1 := AcceptMsg(s0, c, now).value;
        Ready(s1);
        AcceptMsgClock(s0, c, now);
        AcceptFinWrites(s1, c, now, len);
      }
    }
  }

  lemma AcceptMsgClock(s: Gateway, c: nat, now: int)
    requires Pools.PoolInv(s.pool) && c in s.clients
    requires 0 in s.clients[c].table && s.clients[c].table[0] in s.events && AcceptMsg(s, c, now).Some?
    ensures AcceptMsg(s, c, now).value.clock == now
  {
  }

  lemma {:induction false} FinSweepStamps(s: Gateway)
    requires GatewaySpec.Inv(s) && WritesOk(s) && FinSweep(s).Some?
    ensures WritesOk(FinSweep(s).value)
    decreases |s.finQ| + Overdue(s, s.finQ)
  {
    hide GatewaySpec.Inv, BlocksOk, MemOk, WritesOk, FinSweep, Overdue, Pools.Free, Pools.PoolInv;
    InvBlocks(s);
    if s.finQ == [] {
      FinSweepDone(s);
      return;
    }
    FinSweepStep(s);
    var e := s.events[s.finQ[0]];
    if e.uuid !in s.clients || (s.clock - e.arrTime > FIN_TIMEOUT && e.finishFlag) {
      PopWrites(s);
      FinSweepStamps(PopFin(s));
    } else if s.clock - e.arrTime > FIN_TIMEOUT {
      ResendWrites(s);
      FinSweepStamps(Resend(s));
    } else {
      FinSweepDone(s);
    }
  }

  lemma PopWrites(s: Gateway)
    requires GatewaySpec.Inv(s) && WritesOk(s) && MemOk(s) && s.finQ != [] && s.finQ[0] in s.events
    requires s.events[s.finQ[0]].uuid !in s.clients || s.events[s.finQ[0]].finishFlag
    ensures WritesOk(PopFin(s))
  {
    hide WritesOk;
    forall c, k | c in s.clients && k in s.clients[c].table && k != 0
      ensures TimeOf(PopFin(s), s.clients[c].table[k]) == TimeOf(s, s.clients[c].table[k])
    {
      assert PendingOk(s, c, k);
    }
    WritesSame(s, PopFin(s));
  }

  lemma ResendWrites(s: Gateway)
    requires GatewaySpec.Inv(s) && WritesOk(s) && s.finQ != [] && s.finQ[0] in s.events
    requires s.events[s.finQ[0]].uuid in s.clients && !s.events[s.finQ[0]].finishFlag
    ensures WritesOk(Resend(s))
  {
    var p, t := s.finQ[0], Resend(s);
    var e := s.events[p];
    assert p in s.finQ && TabledOk(s, p) && EventOk(s, p);
    assert PendingOk(s, e.uuid, e.pack) && PendingWritten(s, e.uuid, e.pack);
    forall c, k | c in t.clients && k in t.clients[c].table && k != 0 ensures PendingWritten(t, c, k) {
      assert PendingOk(s, c, k) && PendingWritten(s, c, k);
      if c != e.uuid || k != e.pack {
        WriteOther(s.writes, Write(e.uuid, e.pack, s.clock), c, k, TimeOf(s, s.clients[c].table[k]));
      }
    }
  }

  lemma TickWrites(s: Gateway, now: int)
    requires GatewaySpec.Inv(s) && WritesOk(s) && now >= s.clock && Tick(s, now).Some?
    ensures WritesOk(Tick(s, now).value)
  {
    hide GatewaySpec.Inv, WritesOk, MsgSweep, FinSweep;
    ClockSound(s, now);
    var s0 := s.(clock := now);
    WritesSame(s, s0);
    MsgSweepWrites(s0);
    FinSweepStamps(MsgSweep(s0));
  }

  lemma MsgSweepWrites(s: Gateway)
    requires GatewaySpec.Inv(s) && WritesOk(s)
    ensures GatewaySpec.Inv(MsgSweep(s)) && WritesOk(MsgSweep(s))
  {
    hide GatewaySpec.Inv, WritesOk, MsgSweep;
    InvBlocks(s);
    MsgSweepSound(s);
    MsgSweepKeeps(s);
    var t := MsgSweep(s);
    forall c, k | c in t.clients && k in t.clients[c].table && k != 0
      ensures TimeOf(t, s.clients[c].table[k]) == TimeOf(s, s.clients[c].table[k])
    {
      PendingEvent(s, c, k);
    }
    WritesSame(s, t);
  }

  lemma StepWrites(s: Gateway, call: Call)
    requires GatewaySpec.Inv(s) && WritesOk(s) && Enabled(s, call) && Step(s, call).Some?
    ensures WritesOk(Step(s, call).value)
  {
    hide GatewaySpec.Inv, WritesOk, Connect, Request, Tick;
    match call
    case ClientConnects(now) => ConnectWrites(s, now);
    case ClientSends(c, now, len) => RequestWrites(s, c, now, len);
    case ServerReplies(c, k) => WritesSame(s, Reply(s, c, k));
    case ClientLeaves(c) => WritesSame(s, Disconnect(s, c));
    case TimerFires(now) => TickWrites(s, now);
    case PeriodEnds => WritesSame(s, EmptyCount(s));
  }

  lemma {:induction false} RunWrites(s: Gateway, calls: seq<Call>, t: Gateway)
    requires GatewaySpec.Inv(s) && WritesOk(s) && Reaches(s, calls, t)
    ensures GatewaySpec.Inv(t) && WritesOk(t)
    decreases |calls|
  {
    if calls != [] {
      StepSound(s, calls[0]);
      StepWrites(s, calls[0]);
      RunWrites(Step(s, calls[0]).value, calls[1..], t);
    }
  }

  /** An unanswered request that nobody wrote to a server for more than FIN_TIMEOUT. */
  ghost predicate Neglected(s: Gateway, now: int, c: nat, k: nat) {
    && c in s.clients && (c, k) in s.sent && (c, k) !in s.replies
    && forall w {:trigger w in s.writes} | w in s.writes && w.client == c && w.pack == k :: now - w.time > FIN_TIMEOUT
  }

  lemma NeglectedIsDue(s: Gateway, c: nat, k: nat)
    requires GatewaySpec.Inv(s) && WritesOk(s)
    ensures Due(s, c, k) <==> Neglected(s, s.clock, c, k)
  {
    if c in s.clients {
      assert SentOk(s, c, k);
      assert k >= 1 ==> RequestOk(s, c, k);
      if k in s.clients[c].table && k != 0 {
        assert PendingOk(s, c, k);
        assert PendingWritten(s, c, k);
      }
    }
  }

  /**
   A timer tick writes to a server exactly the neglected requests of the clients that stay, each once.
   Afterwards every unanswered request of a connected client was written at most FIN_TIMEOUT ago.
   */
  lemma TickResends(s: Gateway, now: int) returns (news: seq<Write>)
    requires GatewaySpec.Inv(s) && WritesOk(s) && now >= s.clock && Tick(s, now).Some?
    ensures var t := Tick(s, now).value;
      && t.writes == s.writes + news
      && (forall i, j {:trigger news[i], news[j]} | 0 <= i < j < |news| :: news[i] != news[j])
      && (forall w {:trigger w in news} :: w in news <==>
            w.time == now && w.client in t.clients && Neglected(s, now, w.client, w.pack))
      && (forall c, k {:trigger Neglected(t, now, c, k)} :: !Neglected(t, now, c, k))
  {
    hide GatewaySpec.Inv, WritesOk, MsgSweep, FinSweep, Due, LastWrite;
    ClockSound(s, now);
    var s0 := s.(clock := now);
    WritesSame(s, s0);
    MsgSweepSound(s0);
    MsgSweepKeeps(s0);
    MsgSweepWrites(s0);
    var s1 := MsgSweep(s0);
    FinSweepSound(s1);
    news := FinSweepWrites(s1);
    FinSweepStamps(s1);
    var t := FinSweep(s1).value;
    forall w ensures w in news <==> w.time == now && w.client in t.clients && Neglected(s, now, w.client, w.pack) {
      NeglectedIsDue(s1, w.client, w.pack);
    }
    forall c, k ensures !Neglected(t, now, c, k) {
      NeglectedIsDue(t, c, k);
      NotDueAfter(t, c, k);
    }
  }

  lemma NotDueAfter(s: Gateway, c: nat, k: nat)
    requires GatewaySpec.Inv(s)
    requires forall p {:trigger p in s.finQ} | p in s.finQ ::
      p in s.events && s.clock - s.events[p].arrTime <= FIN_TIMEOUT
    ensures !Due(s, c, k)
  {
    if c in s.clients && k in s.clients[c].table && k != 0 {
      PendingEvent(s, c, k);
    }
  }

  /** The same for every tick of every run. */
  lemma RunResends(start: Addr, garbage: bool, t0: int, calls: seq<Call>, s: Gateway, now: int)
      returns (news: seq<Write>)
    requires NULL < start && Reachable(start, garbage, t0, calls, s)
    requires Enabled(s, TimerFires(now)) && GatewaySpec.Inv(s) && Tick(s, now).Some?
    ensures var t := Tick(s, now).value;
      && t.writes == s.writes + news
      && (forall i, j {:trigger news[i], news[j]} | 0 <= i < j < |news| :: news[i] != news[j])
      && (forall w {:trigger w in news} :: w in news <==>
            w.time == now && w.client in t.clients && Neglected(s, now, w.client, w.pack))
      && (forall c, k {:trigger Neglected(t, now, c, k)} :: !Neglected(t, now, c, k))
  {
    StartSound(start, garbage, t0);
    RunWrites(Start(start, garbage, t0), calls, s);
    news := TickResends(s, now);
  }

  // ----- when clients were last heard

  /** The call is client c connecting, or a request of c that is passed on to a server. */
  ghost predicate Hears(s: Gateway, call: Call, c: nat)
    requires GatewaySpec.Inv(s) && Enabled(s, call) && Step(s, call).Some?
  {
    match call
    case ClientConnects(now) => c == s.nextId
    case ClientSends(d, now, len) => d == c && Step(s, call).value.sent != s.sent
    case _ => false
  }

  function TimeOfCall(s: Gateway, call: Call): int {
    match call
    case ClientConnects(now) => now
    case ClientSends(c, now, len) => now
    case TimerFires(now) => now
    case _ => s.clock
  }

  /** When client c was last heard in the run from s to t, or before if it was not. */
  ghost function LastHeard(s: Gateway, calls: seq<Call>, t: Gateway, c: nat, before: int): int
    requires GatewaySpec.Inv(s) && Reaches(s, calls, t)
    decreases |calls|
  {
    if calls == [] then before else
      StepSound(s, calls[0]);
      LastHeard(Step(s, calls[0]).value, calls[1..], t, c,
                if Hears(s, calls[0], c) then TimeOfCall(s, calls[0]) else before)
  }

  lemma LastSeenSame(s: Gateway, t: Gateway, c: nat)
    requires c in s.clients && c in t.clients && t.clients[c].table == s.clients[c].table
    requires 0 in s.clients[c].table ==> TimeOf(t, s.clients[c].table[0]) == TimeOf(s, s.clients[c].table[0])
    ensures LastSeen(t, c) == LastSeen(s, c)
  {
  }

  lemma RequestHears(s: Gateway, d: nat, now: int, len: nat, c: nat)
    requires GatewaySpec.Inv(s) && d in s.clients && now >= s.clock && Request(s, d, now, len).Some? && c in s.clients
    ensures var t := Request(s, d, now, len).value;
      && c in t.clients && t.nextId == s.nextId
      && LastSeen(t, c) == if d == c && t.sent != s.sent then now else LastSeen(s, c)
  {
    hide GatewaySpec.Inv, Request, AcceptFin;
    RequestStages(s, d, now, len);
    var cl, t := s.clients[d], Request(s, d, now, len).value;
    var s0 := Counted(s, d, cl.count >= REQUESTS_PER_PERIOD);
    if !cl.closeFlag && cl.count < REQUESTS_PER_PERIOD {
      Ready(s0);
      hide AcceptMsg;
      AcceptMsgTimes(s0, d, now);
      var s1 := AcceptMsg(s0, d, now).value;
      CurrentKnown(s0, c);
      AcceptFinHears(s1, d, now, len, c);
      AcceptFinSends(s1, d, now, len);
    }
  }

  lemma AcceptFinHears(s: Gateway, d: nat, now: int, len: nat, c: nat)
    requires GatewaySpec.Inv(s) && d in s.clients && c in s.clients && AcceptFin(s, d, now, len).Some?
    ensures var t := AcceptFin(s, d, now, len).value;
      c in t.clients && t.nextId == s.nextId && LastSeen(t, c) == LastSeen(s, c)
  {
    NextPackIsFree(s, d);
    Ready(s);
    AcceptFinIs(s, d, now, len);
    NewIsNew(s, RequestEvent(d, s.clients[d].packId + 1, now, len));
    CurrentKnown(s, c);
  }

  lemma AcceptFinSends(s: Gateway, d: nat, now: int, len: nat)
    requires GatewaySpec.Inv(s) && d in s.clients && AcceptFin(s, d, now, len).Some?
    ensures AcceptFin(s, d, now, len).value.sent != s.sent
  {
    NextPackIsFree(s, d);
    Ready(s);
    AcceptFinIs(s, d, now, len);
    var k := s.clients[d].packId + 1;
    assert SentOk(s, d, k);
    assert (d, k) in AcceptFin(s, d, now, len).value.sent;
  }

  lemma TickHears(s: Gateway, now: int, c: nat)
    requires GatewaySpec.Inv(s) && now >= s.clock && Tick(s, now).Some? && c in Tick(s, now).value.clients
    ensures c in s.clients && LastSeen(Tick(s, now).value, c) == LastSeen(s, c)
  {
    hide GatewaySpec.Inv, MsgSweep, FinSweep;
    ClockSound(s, now);
    var s0 := s.(clock := now);
    MsgSweepSound(s0);
    MsgSweepKeeps(s0);
    var s1 := MsgSweep(s0);
    FinSweepSound(s1);
    FinSweepKeeps(s1);
    CurrentInMsg(s1, c);
  }

  lemma CurrentInMsg(s: Gateway, c: nat)
    requires GatewaySpec.Inv(s) && c in s.clients
    ensures 0 in s.clients[c].table && s.clients[c].table[0] in s.msgQ && s.clients[c].table[0] in s.events
  {
    assert CurrentOk(s, c);
  }

  lemma ConnectHears(s: Gateway, now: int, c: nat)
    requires GatewaySpec.Inv(s) && now >= s.clock && Connect(s, now).Some? && c in Connect(s, now).value.clients
    ensures c != s.nextId ==> c in s.clients && LastSeen(Connect(s, now).value, c) == LastSeen(s, c)
    ensures c == s.nextId ==> LastSeen(Connect(s, now).value, c) == now
  {
    NewIsNew(s, Event(s.nextId, 0, now, false, false));
    if c != s.nextId {
      CurrentInMsg(s, c);
    }
  }

  lemma ReplyHears(s: Gateway, d: nat, k: nat, c: nat)
    requires GatewaySpec.Inv(s) && (d, k) in s.sent && c in s.clients
    ensures c in Reply(s, d, k).clients && LastSeen(Reply(s, d, k), c) == LastSeen(s, c)
  {
    ReplyKnown(s, d, k);
    CurrentInMsg(s, c);
    assert k >= 1;
    if d in s.clients && k in s.clients[d].table {
      PendingEvent(s, d, k);
    }
  }

  /** One call: a client that is connected after it was heard by it, or was there and is as it was. */
  lemma StepHears(s: Gateway, call: Call, c: nat)
    requires GatewaySpec.Inv(s) && Enabled(s, call) && Step(s, call).Some? && c in Step(s, call).value.clients
    ensures Hears(s, call, c) ==> LastSeen(Step(s, call).value, c) == TimeOfCall(s, call)
    ensures !Hears(s, call, c) ==> c in s.clients && LastSeen(Step(s, call).value, c) == LastSeen(s, c)
  {
    hide GatewaySpec.Inv, Connect, Request, Reply, Tick, LastSeen;
    match call
    case ClientConnects(now) => ConnectHears(s, now, c);
    case ClientSends(d, now, len) =>
      RequestClients(s, d, now, len);
      RequestHears(s, d, now, len, c);
    case ServerReplies(d, k) =>
      ReplyClients(s, d, k);
      ReplyHears(s, d, k, c);
    case ClientLeaves(d) => LastSeenSame(s, Disconnect(s, d), c);
    case TimerFires(now) => TickHears(s, now, c);
    case PeriodEnds => LastSeenSame(s, EmptyCount(s), c);
  }

  lemma RequestClients(s: Gateway, d: nat, now: int, len: nat)
    requires GatewaySpec.Inv(s) && d in s.clients && now >= s.clock && Request(s, d, now, len).Some?
    ensures Request(s, d, now, len).value.clients.Keys == s.clients.Keys
  {
    hide GatewaySpec.Inv, Request;
    RequestStages(s, d, now, len);
  }

  lemma ReplyClients(s: Gateway, d: nat, k: nat)
    requires GatewaySpec.Inv(s) && (d, k) in s.sent
    ensures Reply(s, d, k).clients.Keys == s.clients.Keys
  {
    ReplyKnown(s, d, k);
  }

  lemma {:induction false} RunHears(s: Gateway, calls: seq<Call>, t: Gateway, c: nat, before: int)
    requires GatewaySpec.Inv(s) && Reaches(s, calls, t) && c in t.clients
    requires c in s.clients ==> before == LastSeen(s, c)
    ensures c in s.clients || c >= s.nextId
    ensures LastSeen(t, c) == LastHeard(s, calls, t, c, before)
    decreases |calls|
  {
    if calls != [] {
      var u := Step(s, calls[0]).value;
      StepSound(s, calls[0]);
      RateLimit.StepSpends(s, calls[0], c);
      if c in u.clients {
        StepHears(s, calls[0], c);
      }
      RunHears(u, calls[1..], t, c, if Hears(s, calls[0], c) then TimeOfCall(s, calls[0]) else before);
      HeardIsConnected(s, calls[0], c);
    }
  }

  /** A client that is heard is connected afterwards. */
  lemma HeardIsConnected(s: Gateway, call: Call, c: nat)
    requires GatewaySpec.Inv(s) && Enabled(s, call) && Step(s, call).Some?
    ensures Hears(s, call, c) ==> c in Step(s, call).value.clients
  {
    hide GatewaySpec.Inv, Request;
    if call.ClientSends? {
      RequestClients(s, call.c, call.now, call.len);
    } else if call.ClientConnects? {
      Ready(s);
    }
  }

  /**
   In every run a connected client's LastSeen is when it connected or when its last request was
   passed on, whichever is later; so the idle sweep goes by that and by nothing else.
   */
  lemma RunLastSeen(start: Addr, garbage: bool, t0: int, calls: seq<Call>, t: Gateway, c: nat)
    requires NULL < start && Reachable(start, garbage, t0, calls, t) && c in t.clients
    ensures GatewaySpec.Inv(Start(start, garbage, t0))
    ensures LastSeen(t, c) == LastHeard(Start(start, garbage, t0), calls, t, c, t0)
  {
    StartSound(start, garbage, t0);
    RunHears(Start(start, garbage, t0), calls, t, c, t0);
  }

  /** One more tick disconnects exactly the clients last heard more than MSG_TIMEOUT ago. */
  lemma RunSilence(start: Addr, garbage: bool, t0: int, calls: seq<Call>, s: Gateway, now: int, c: nat)
    requires NULL < start && Reachable(start, garbage, t0, calls, s) && GatewaySpec.Inv(s)
    requires now >= s.clock && Tick(s, now).Some? && c in s.clients
    ensures GatewaySpec.Inv(Start(start, garbage, t0))
    ensures c in Tick(s, now).value.clients <==>
      now - LastHeard(Start(start, garbage, t0), calls, s, c, t0) <= MSG_TIMEOUT
  {
    RunLastSeen(start, garbage, t0, calls, s, c);
    TickSound(s, now);
  }
}
