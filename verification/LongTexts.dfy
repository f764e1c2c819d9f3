/**
 Requests whose text is too long for c_info: strcpy sets the finish flag of the request's own event
 from 1034 bytes on, and the resend sweep then frees an event that its client's table still holds.
 */
module LongTexts {
  import opened GatewayHistory
  import opened GatewayRuns
  import opened GatewaySpec
  import opened Options
  import opened Words
  import Pools

  /** Every table entry is an event that was not freed. */
  ghost predicate EntriesLive(s: Gateway) {
    forall c, k {:trigger k in s.clients[c].table} | c in s.clients && k in s.clients[c].table ::
      s.clients[c].table[k] in s.events
  }

  /** No event that still waits for an answer is one of request k of client c. */
  ghost predicate NotWaiting(s: Gateway, c: nat, k: nat) {
    forall p {:trigger p in s.finQ} | p in s.finQ :: p in s.events
      && (s.events[p].uuid == c && s.events[p].pack == k ==> s.events[p].finishFlag)
  }

  /** Nothing is written for the request. */
  ghost predicate NotWritten(before: seq<Write>, after: seq<Write>, c: nat, k: nat) {
    forall w {:trigger w in after} | w in after && w.client == c && w.pack == k :: w in before
  }

  lemma {:induction false} FinSweepSilent(s: Gateway, c: nat, k: nat)
    requires BlocksOk(s) && FinSweep(s).Some? && NotWaiting(s, c, k)
    ensures NotWritten(s.writes, FinSweep(s).value.writes, c, k)
    decreases |s.finQ| + Overdue(s, s.finQ)
  {
    hide BlocksOk, MemOk, FinSweep, Overdue, Pools.Free, Pools.PoolInv;
    if s.finQ == [] {
      FinSweepDone(s);
      return;
    }
    FinRound(s);
    FrontAndRest(s);
    var e := s.events[s.finQ[0]];
    if e.uuid !in s.clients || (s.clock - e.arrTime > FIN_TIMEOUT && e.finishFlag) {
      PopNotWaiting(s, c, k);
      FinSweepSilent(PopFin(s), c, k);
    } else if s.clock - e.arrTime > FIN_TIMEOUT {
      ResendNotWaiting(s, c, k);
      FinSweepSilent(Resend(s), c, k);
    }
  }

  lemma PopNotWaiting(s: Gateway, c: nat, k: nat)
    requires BlocksOk(s) && s.finQ != [] && s.finQ[0] in s.events && NotWaiting(s, c, k)
    ensures NotWaiting(PopFin(s), c, k) && PopFin(s).writes == s.writes
  {
    FrontAndRest(s);
    hide BlocksOk, Pools.Free, Pools.PoolInv;
    forall p | p in PopFin(s).finQ
      ensures p in PopFin(s).events && PopFin(s).events[p] == s.events[p] && p in s.finQ
    {
      assert p in s.finQ[1..] && p in s.finQ;
    }
  }

  lemma ResendNotWaiting(s: Gateway, c: nat, k: nat)
    requires BlocksOk(s) && s.finQ != [] && s.finQ[0] in s.events && NotWaiting(s, c, k)
    requires !s.events[s.finQ[0]].finishFlag
    ensures NotWaiting(Resend(s), c, k) && NotWritten(s.writes, Resend(s).writes, c, k)
  {
    FrontAndRest(s);
    forall p | p in Resend(s).finQ ensures p in s.finQ {
      assert p in s.finQ[1..] || p == s.finQ[0];
    }
  }

  lemma FrontAndRest(s: Gateway)
    requires BlocksOk(s) && s.finQ != []
    ensures s.finQ[0] in s.finQ && s.finQ[0] !in s.finQ[1..]
    ensures forall p {:trigger p in s.finQ} :: p in s.finQ <==> p == s.finQ[0] || p in s.finQ[1..]
    ensures forall p {:trigger p in s.finQ} | p in s.finQ ::
      p in s.events && s.finQ[0] in s.events && s.events[s.finQ[0]].arrTime <= s.events[p].arrTime
  {
    PopMembers(s.finQ);
    forall p | p in s.finQ
      ensures p in s.events && s.finQ[0] in s.events && s.events[s.finQ[0]].arrTime <= s.events[p].arrTime
    {
      var i :| 0 <= i < |s.finQ| && s.finQ[i] == p;
      assert s.finQ[0] in s.finQ;
      assert TimeOf(s, s.finQ[0]) <= TimeOf(s, s.finQ[i]);
    }
  }

  /** The sweep frees an overdue event whose flag is set. */
  lemma {:induction false} FinSweepDrops(s: Gateway, p: Addr)
    requires BlocksOk(s) && FinSweep(s).Some? && p in s.finQ && p in s.events
    requires s.clock - s.events[p].arrTime > FIN_TIMEOUT && s.events[p].finishFlag
    ensures p !in FinSweep(s).value.events
    decreases |s.finQ| + Overdue(s, s.finQ)
  {
    hide BlocksOk, MemOk, FinSweep, Overdue, Pools.Free, Pools.PoolInv;
    FinRound(s);
    FrontAndRest(s);
    var e := s.events[s.finQ[0]];
    if e.uuid !in s.clients || e.finishFlag {
      if p == s.finQ[0] {
        FinSweepKeeps(PopFin(s));
      } else {
        FinSweepDrops(PopFin(s), p);
      }
    } else {
      FinSweepDrops(Resend(s), p);
    }
  }

  /** A request that the limiter lets through. */
  predicate Allowed(s: Gateway, c: nat) {
    c in s.clients && !s.clients[c].closeFlag && s.clients[c].count < REQUESTS_PER_PERIOD
  }

  /** What the acceptance of such a request leaves: its event, flagged from the start. */
  lemma LongRequest(s: Gateway, c: nat, now: int, len: nat) returns (p: Addr)
    requires GatewaySpec.Inv(s) && Allowed(s, c) && now >= s.clock && Request(s, c, now, len).Some? && !KeepsFlag(len)
    ensures var t, k := Request(s, c, now, len).value, s.clients[c].packId + 1;
      && c in t.clients && k in t.clients[c].table && t.clients[c].table[k] == p && t.clock == now
      && p in t.finQ && p in t.events && t.events[p].uuid == c && t.events[p].pack == k
      && t.events[p].arrTime == now && t.events[p].finishFlag
      && (c, k) in t.sent && (c, k) !in t.replies && NotWaiting(t, c, k)
      && forall w {:trigger w in t.writes} | w in t.writes && w.client == c && w.pack == k ::
        w in s.writes || w.time == now
  {
    hide GatewaySpec.Inv, Request, AcceptFin, NotWaiting, KeepsFlag;
    var s1 := AllowedStages(s, c, now, len);
    p := LongRecord(s1, c, now, len);
  }

  /** An allowed request is its arrival record, after which nothing was written yet, and its request record. */
  lemma AllowedStages(s: Gateway, c: nat, now: int, len: nat) returns (s1: Gateway)
    requires GatewaySpec.Inv(s) && Allowed(s, c) && now >= s.clock && Request(s, c, now, len).Some?
    ensures GatewaySpec.Inv(s1) && c in s1.clients && s1.clients[c].packId == s.clients[c].packId
    ensures s1.writes == s.writes && s1.clock == now && Request(s, c, now, len) == AcceptFin(s1, c, now, len)
  {
    hide GatewaySpec.Inv, Request;
    RequestStages(s, c, now, len);
    var s0 := Counted(s, c, false);
    Ready(s0);
    hide AcceptMsg, AcceptFin;
    AcceptMsgTimes(s0, c, now);
    s1 := AcceptMsg(s0, c, now).value;
  }

  lemma LongRecord(s: Gateway, c: nat, now: int, len: nat) returns (p: Addr)
    requires GatewaySpec.Inv(s) && c in s.clients && AcceptFin(s, c, now, len).Some? && !KeepsFlag(len)
    ensures var t, k := AcceptFin(s, c, now, len).value, s.clients[c].packId + 1;
      && c in t.clients && k in t.clients[c].table && t.clients[c].table[k] == p && t.clock == now
      && p in t.finQ && p in t.events && t.events[p] == RequestEvent(c, k, now, len) && t.events[p].finishFlag
      && (c, k) in t.sent && (c, k) !in t.replies && NotWaiting(t, c, k)
      && t.writes == s.writes + [Write(c, k, now)]
  {
    var k := s.clients[c].packId + 1;
    NextPackIsFree(s, c);
    AcceptFinIs(s, c, now, len);
    var e := RequestEvent(c, k, now, len);
    NewIsNew(s, e);
    p := NewEvent(s, e).1;
    assert SentOk(s, c, k);
    NoneWaiting(s, c, k);
    hide GatewaySpec.Inv, NewEvent, AcceptFin, Pools.PoolInv;
  }

  /** No event waits for an answer to a request that was not made. */
  lemma NoneWaiting(s: Gateway, c: nat, k: nat)
    requires GatewaySpec.Inv(s) && c in s.clients && k !in s.clients[c].table
    ensures NotWaiting(s, c, k)
  {
    forall p | p in s.finQ
      ensures p in s.events && (s.events[p].uuid == c && s.events[p].pack == k ==> s.events[p].finishFlag)
    {
      assert TabledOk(s, p);
    }
  }

  /**
   A request of 1034 bytes or more, whatever came before: if its client is still connected when a
   tick finds its event overdue, the event is freed, the table still points to it, and the request
   was never written again.
   */
  lemma LongTextDangles(s: Gateway, c: nat, now: int, len: nat, later: int)
    requires GatewaySpec.Inv(s) && Allowed(s, c) && now >= s.clock && Request(s, c, now, len).Some? && !KeepsFlag(len)
    requires later - now > FIN_TIMEOUT
    requires now <= Request(s, c, now, len).value.clock <= later
    requires Tick(Request(s, c, now, len).value, later).Some?
    requires c in Tick(Request(s, c, now, len).value, later).value.clients
    ensures var u, k := Tick(Request(s, c, now, len).value, later).value, s.clients[c].packId + 1;
      && (c, k) in u.sent && (c, k) !in u.replies
      && k in u.clients[c].table && u.clients[c].table[k] !in u.events
      && forall w {:trigger w in u.writes} | w in u.writes && w.client == c && w.pack == k ::
        w in s.writes || w.time == now
  {
    var p := LongRequest(s, c, now, len);
    var t, k := Request(s, c, now, len).value, s.clients[c].packId + 1;
    hide GatewaySpec.Inv, Request, MsgSweep, FinSweep, BlocksOk;
    ClockBlocks(t, later);
    var t0 := t.(clock := later);
    MsgSweepKeeps(t0);
    var t1 := MsgSweep(t0);
    FinSweepKeeps(t1);
    FinSweepDrops(t1, p);
    FinSweepSilent(t1, c, k);
  }

  // ----- exactly which texts

  /**
   Texts of this length are safe: after any such request and the next tick every table entry is a
   live event, and no unanswered request of a connected client has been neglected.
   */
  ghost predicate SafeText(len: nat) {
    forall s, c, now: int, later: int {:trigger SafeAfter(s, c, now, len, later)} |
      GatewaySpec.Inv(s) && WritesOk(s) && Allowed(s, c) && s.clock <= now <= later && Request(s, c, now, len).Some?
      :: SafeAfter(s, c, now, len, later)
  }

  ghost predicate SafeAfter(s: Gateway, c: nat, now: int, len: nat, later: int)
    requires GatewaySpec.Inv(s) && Allowed(s, c) && s.clock <= now <= later && Request(s, c, now, len).Some?
  {
    var t := Request(s, c, now, len).value;
    t.clock <= later && Tick(t, later).Some? ==>
      var u := Tick(t, later).value;
      EntriesLive(u) && forall d, k {:trigger Neglected(u, later, d, k)} :: !Neglected(u, later, d, k)
  }

  lemma SafeBelow(s: Gateway, c: nat, now: int, len: nat, later: int)
    requires GatewaySpec.Inv(s) && WritesOk(s) && Allowed(s, c) && s.clock <= now <= later
    requires Request(s, c, now, len).Some? && KeepsFlag(len)
    ensures SafeAfter(s, c, now, len, later)
  {
    hide Request, WritesOk, Neglected;
    RequestSound(s, c, now, len);
    RequestWrites(s, c, now, len);
    var t := Request(s, c, now, len).value;
    if t.clock <= later && Tick(t, later).Some? {
      var news := TickResends(t, later);
      TickSound(t, later);
      AllLive(Tick(t, later).value);
    }
  }

  lemma AllLive(s: Gateway)
    requires GatewaySpec.Inv(s)
    ensures EntriesLive(s)
  {
    forall c, k | c in s.clients && k in s.clients[c].table ensures s.clients[c].table[k] in s.events {
      assert CurrentOk(s, c) && (k != 0 ==> PendingOk(s, c, k));
    }
  }

  /** One client that has just connected. */
  lemma OneClient() returns (s: Gateway)
    ensures GatewaySpec.Inv(s) && WritesOk(s) && Allowed(s, 0) && s.clock == 0 && s.clients[0].packId == 0
    ensures |s.msgQ| == 1 && s.finQ == [] && s.msgQ[0] in s.events
    ensures s.events[s.msgQ[0]].uuid == 0 && s.events[s.msgQ[0]].arrTime == 0
    ensures Reachable(1, false, 0, [ClientConnects(0)], s)
  {
    hide GatewaySpec.Inv, Connect, Pools.PoolInv, Pools.Init;
    var z := Start(1, false, 0);
    StartSound(1, false, 0);
    FirstConnect(z);
    s := Connect(z, 0).value;
    ConnectSound(z, 0);
    OneCall(z, s);
  }

  lemma FirstConnect(z: Gateway)
    requires GatewaySpec.Inv(z) && z.nextId == 0 && z.msgQ == [] && z.finQ == [] && z.writes == [] && z.clients == map[]
    ensures Pools.PoolInv(z.pool) && Connect(z, 0).Some?
    ensures var s := Connect(z, 0).value;
      && WritesOk(s) && Allowed(s, 0) && s.clock == 0 && s.clients[0].packId == 0
      && |s.msgQ| == 1 && s.finQ == [] && s.msgQ[0] in s.events
      && s.events[s.msgQ[0]].uuid == 0 && s.events[s.msgQ[0]].arrTime == 0
  {
    NewIsNew(z, Event(0, 0, 0, false, false));
    hide GatewaySpec.Inv, Pools.PoolInv, Pools.Alloc;
  }

  lemma OneCall(z: Gateway, s: Gateway)
    requires GatewaySpec.Inv(z) && z.clock <= 0 && Connect(z, 0) == Some(s)
    ensures Reaches(z, [ClientConnects(0)], s)
  {
    hide GatewaySpec.Inv, Connect;
    assert [ClientConnects(0)][1..] == [];
    StepSound(z, ClientConnects(0));
  }

  lemma OnlyRequest(s: Gateway, len: nat)
    requires GatewaySpec.Inv(s) && Allowed(s, 0) && s.clock == 0
    requires |s.msgQ| == 1 && s.finQ == [] && s.msgQ[0] in s.events
    requires s.events[s.msgQ[0]].uuid == 0 && s.events[s.msgQ[0]].arrTime == 0
    ensures Request(s, 0, 0, len).Some?
    ensures var t := Request(s, 0, 0, len).value;
      && 0 in t.clients && t.clock == 0 && |t.finQ| == 1 && t.msgQ != []
      && t.msgQ[0] in t.events && t.events[t.msgQ[0]].uuid == 0 && t.events[t.msgQ[0]].arrTime == 0
  {
    var p := s.msgQ[0];
    RequestStages(s, 0, 0, len);
    var s0 := Counted(s, 0, false);
    Ready(s0);
    AcceptMsgIs(s0, 0, 0);
    AcceptMsgTimes(s0, 0, 0);
    var s1 := AcceptMsg(s0, 0, 0).value;
    assert TimeOf(s1, p) == TimeOf(s0, p);
    hide Request, AcceptMsg;
    OnlyRecord(s1, len, p);
  }

  lemma OnlyRecord(s: Gateway, len: nat, p: Addr)
    requires GatewaySpec.Inv(s) && 0 in s.clients && |s.finQ| == 0 && p in s.events
    ensures AcceptFin(s, 0, 0, len).Some?
    ensures var t := AcceptFin(s, 0, 0, len).value;
      && 0 in t.clients && t.clock == 0 && |t.finQ| == 1 && t.msgQ == s.msgQ
      && p in t.events && t.events[p] == s.events[p]
  {
    var k := s.clients[0].packId + 1;
    NextPackIsFree(s, 0);
    Ready(s);
    AcceptFinIs(s, 0, 0, len);
    NewIsNew(s, RequestEvent(0, k, 0, len));
    hide GatewaySpec.Inv, NewEvent, AcceptFin, Pools.PoolInv;
  }

  lemma OnlyOneSwept(s: Gateway)
    requires BlocksOk(s) && |s.finQ| == 1 && s.finQ[0] in s.events && s.events[s.finQ[0]].finishFlag
    requires s.clock - s.events[s.finQ[0]].arrTime > FIN_TIMEOUT
    ensures FinSweep(s).Some? && FinSweep(s).value.clients == s.clients
  {
    hide BlocksOk, MemOk, FinSweep, Overdue, Pools.Free, Pools.PoolInv;
    FinRound(s);
    FinSweepDone(PopFin(s));
  }

  /** It sends a long text, and eleven seconds later the timer fires. */
  lemma LongTextRun(len: nat) returns (s: Gateway)
    requires !KeepsFlag(len)
    ensures GatewaySpec.Inv(s) && WritesOk(s) && Allowed(s, 0) && s.clock == 0
    ensures Reachable(1, false, 0, [ClientConnects(0)], s)
    ensures Request(s, 0, 0, len).Some? && Request(s, 0, 0, len).value.clock == 0
    ensures var t := Request(s, 0, 0, len).value;
      && Tick(t, 11).Some? && 0 in Tick(t, 11).value.clients && 1 in Tick(t, 11).value.clients[0].table
      && Tick(t, 11).value.clients[0].table[1] !in Tick(t, 11).value.events
  {
    s := OneClient();
    hide GatewaySpec.Inv, Request, Tick, BlocksOk, Reachable;
    OnlyRequest(s, len);
    var t := Request(s, 0, 0, len).value;
    var p := LongRequest(s, 0, 0, len);
    assert t.finQ[0] == p by {
      assert p in t.finQ;
    }
    LongTick(t);
    LongTextDangles(s, 0, 0, len, 11);
  }

  lemma LongTick(t: Gateway)
    requires BlocksOk(t) && t.clock == 0 && 0 in t.clients && t.msgQ != [] && |t.finQ| == 1
    requires t.msgQ[0] in t.events && t.events[t.msgQ[0]].uuid == 0 && t.events[t.msgQ[0]].arrTime == 0
    requires t.finQ[0] in t.events && t.events[t.finQ[0]].arrTime == 0 && t.events[t.finQ[0]].finishFlag
    ensures Tick(t, 11).Some? && Tick(t, 11).value.clients == t.clients
  {
    hide BlocksOk, MsgSweep, FinSweep;
    ClockBlocks(t, 11);
    MsgRound(t.(clock := 11));
    OnlyOneSwept(t.(clock := 11));
  }

  /** Ownership and resending hold exactly for texts that leave the finish flag alone. */
  lemma SafeTextExact(len: nat)
    ensures SafeText(len) <==> KeepsFlag(len)
    ensures KeepsFlag(len) <==> len < 1034
  {
    if KeepsFlag(len) {
      forall s, c, now: int, later: int |
        GatewaySpec.Inv(s) && WritesOk(s) && Allowed(s, c) && s.clock <= now <= later && Request(s, c, now, len).Some?
        ensures SafeAfter(s, c, now, len, later)
      {
        SafeBelow(s, c, now, len, later);
      }
    } else {
      var s := LongTextRun(len);
      var u := Tick(Request(s, 0, 0, len).value, 11).value;
      assert !EntriesLive(u) by {
        assert 1 in u.clients[0].table;
      }
      assert !SafeAfter(s, 0, 0, len, 11);
    }
  }

  /** The invariant survives an accepted request exactly if its text leaves the finish flag alone. */
  lemma RequestExact(s: Gateway, c: nat, now: int, len: nat)
    requires GatewaySpec.Inv(s) && Allowed(s, c) && now >= s.clock && Request(s, c, now, len).Some?
    ensures GatewaySpec.Inv(Request(s, c, now, len).value) <==> KeepsFlag(len)
  {
    if KeepsFlag(len) {
      RequestSound(s, c, now, len);
    } else {
      var p := LongRequest(s, c, now, len);
      var t, k := Request(s, c, now, len).value, s.clients[c].packId + 1;
      hide Request;
      assert GatewaySpec.Inv(t) ==> PendingOk(t, c, k);
    }
  }
}
