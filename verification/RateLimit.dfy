/**
 The rate limiter over whole runs of a gateway worker: current_limit counts a client's requests,
 empty_count_cb resets the counts at the end of a period.
 */
module RateLimit {
  import opened GatewayRuns
  import opened GatewaySpec
  import Pools

  /** How many more of the client's requests can be passed on in this period. */
  function Budget(s: Gateway, c: nat): (n: nat)
    requires c in s.clients
    ensures n <= REQUESTS_PER_PERIOD
  {
    var cl := s.clients[c];
    if cl.closeFlag || cl.count >= REQUESTS_PER_PERIOD then 0 else REQUESTS_PER_PERIOD - cl.count
  }

  /** The period's end: who is marked for closing goes, everybody else has a full budget again. */
  lemma PeriodRestores(s: Gateway, c: nat)
    ensures c in EmptyCount(s).clients <==> c in s.clients && !s.clients[c].closeFlag
    ensures c in EmptyCount(s).clients ==>
      Budget(EmptyCount(s), c) == REQUESTS_PER_PERIOD && EmptyCount(s).clients[c].packId == s.clients[c].packId
  {
  }

  /** What the budget and the pack_ids of a client that stays connected come to. */
  ghost predicate Spent(s: Gateway, t: Gateway, c: nat, more: nat)
    requires c in s.clients
  {
    c in t.clients ==>
      s.clients[c].packId <= t.clients[c].packId
      && t.clients[c].packId + Budget(t, c) <= s.clients[c].packId + Budget(s, c) + more
  }

  /** Client ids are not used again, so a client that left does not come back. */
  ghost predicate StaysAway(s: Gateway, t: Gateway, c: nat) {
    s.nextId <= t.nextId && (c < s.nextId && c !in s.clients ==> c !in t.clients)
  }

  lemma RequestSpends(s: Gateway, d: nat, now: int, len: nat, c: nat)
    requires GatewaySpec.Inv(s) && d in s.clients && now >= s.clock && Request(s, d, now, len).Some?
    ensures StaysAway(s, Request(s, d, now, len).value, c)
    ensures c in s.clients ==> Spent(s, Request(s, d, now, len).value, c, 0)
  {
    hide GatewaySpec.Inv, Request;
    RequestStages(s, d, now, len);
  }

  lemma TickSpends(s: Gateway, now: int, c: nat)
    requires GatewaySpec.Inv(s) && now >= s.clock && Tick(s, now).Some?
    ensures StaysAway(s, Tick(s, now).value, c)
    ensures c in s.clients ==> Spent(s, Tick(s, now).value, c, 0)
  {
    hide GatewaySpec.Inv, MsgSweep, FinSweep;
    ClockSound(s, now);
    var s0 := s.(clock := now);
    MsgSweepSound(s0);
    FinSweepSound(MsgSweep(s0));
  }

  function Periods(calls: seq<Call>): nat
    decreases |calls|
  {
    if calls == [] then 0 else (if calls[0].PeriodEnds? then 1 else 0) + Periods(calls[1..])
  }

  lemma StepSpends(s: Gateway, call: Call, c: nat)
    requires GatewaySpec.Inv(s) && Enabled(s, call) && Step(s, call).Some?
    ensures StaysAway(s, Step(s, call).value, c)
    ensures c in s.clients ==> Spent(s, Step(s, call).value, c, if call.PeriodEnds? then REQUESTS_PER_PERIOD else 0)
  {
    hide GatewaySpec.Inv, Request, Tick;
    match call
    case ClientConnects(now) =>
      ConnectedStay(s, c);
    case ClientSends(d, now, len) => RequestSpends(s, d, now, len, c);
    case ServerReplies(d, k) =>
    case ClientLeaves(d) =>
    case TimerFires(now) => TickSpends(s, now, c);
    case PeriodEnds => PeriodRestores(s, c);
  }

  lemma ConnectedStay(s: Gateway, c: nat)
    requires GatewaySpec.Inv(s)
    ensures Pools.PoolInv(s.pool)
    ensures c in s.clients ==> c < s.nextId
  {
    assert c in s.clients ==> CurrentOk(s, c);
  }

  lemma {:induction false} RunStaysAway(s: Gateway, calls: seq<Call>, t: Gateway, c: nat)
    requires GatewaySpec.Inv(s) && Reaches(s, calls, t)
    ensures StaysAway(s, t, c)
    decreases |calls|
  {
    if calls != [] {
      StepSound(s, calls[0]);
      StepSpends(s, calls[0], c);
      RunStaysAway(Step(s, calls[0]).value, calls[1..], t, c);
    }
  }

  lemma {:induction false} RunSpends(s: Gateway, calls: seq<Call>, t: Gateway, c: nat)
    requires GatewaySpec.Inv(s) && Reaches(s, calls, t) && c in s.clients
    ensures Spent(s, t, c, REQUESTS_PER_PERIOD * Periods(calls))
    decreases |calls|
  {
    if calls != [] {
      var u := Step(s, calls[0]).value;
      StepSound(s, calls[0]);
      StepSpends(s, calls[0], c);
      ConnectedStay(s, c);
      if c in u.clients {
        RunSpends(u, calls[1..], t, c);
      } else {
        RunStaysAway(u, calls[1..], t, c);
      }
    }
  }

  /**
   Whatever a connected client sends, at most ten of its requests are passed on to a server in each
   period, and those carry the next pack_ids.
   */
  lemma RateLimited(s: Gateway, calls: seq<Call>, t: Gateway, c: nat, k: nat)
    requires GatewaySpec.Inv(s) && Reaches(s, calls, t) && c in s.clients && c in t.clients
    requires (c, k) in t.sent && (c, k) !in s.sent
    ensures s.clients[c].packId < k <= s.clients[c].packId + REQUESTS_PER_PERIOD * (Periods(calls) + 1)
  {
    RunSpends(s, calls, t, c);
    GatewayRuns.RunSound(s, calls, t);
    assert SentOk(s, c, k) && SentOk(t, c, k);
  }
}
