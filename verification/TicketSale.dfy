/**
 The ticket sale of ScrambleView::process: any number of sessions, each running the transaction
 statement by statement, interleaved in any way, against one task row and one ticket table.
 */
module TicketSale {
  import opened Options

  // Assumed of the database: `select ... for update` takes an exclusive lock on the task row that
  // is held to the end of the transaction; commit and rollback are atomic; the ticket table's
  // primary key is the worker's name; a statement may fail at any time.

  /** What is committed: the row's remain_number and the ticket table. */
  datatype Db = Db(remain: int, tickets: map<string, int>)

  datatype Reply = Success | Error | AlreadyHave | NoTicket

  /** The statement a session executes next. */
  datatype Pc = AtBegin | AtCheck | AtLock | AtDecrement | AtInsert | AtCommit | Done(reply: Reply)

  /** seen is the remain_number read under the lock; the other fields are uncommitted writes. */
  datatype Session = Session(worker: string, pc: Pc, seen: int, decremented: bool, ticket: Option<int>)

  /** log lists the sessions that committed a sale, with their workers, in order. */
  datatype World = World(total: int, db: Db, lock: Option<nat>, sessions: map<nat, Session>, log: seq<(nat, string)>)

  /** CreatetaskView::process: remain_number starts as Total_number, and no ticket is issued. */
  function NewTask(total: int): World {
    World(total, Db(total, map[]), None, map[], [])
  }

  // ----- the steps

  /** Roll back whatever the session wrote, release its lock, and send the reply. */
  function Rollback(w: World, sid: nat, reply: Reply): World
    requires sid in w.sessions
  {
    w.(lock := if w.lock == Some(sid) then None else w.lock,
       sessions := w.sessions[sid := w.sessions[sid].(pc := Done(reply), decremented := false, ticket := None)])
  }

  function Goto(w: World, sid: nat, pc: Pc): World
    requires sid in w.sessions
  {
    w.(sessions := w.sessions[sid := w.sessions[sid].(pc := pc)])
  }

  /** The number on the ticket a sale out of db issues. */
  function NextNumber(total: int, db: Db): int {
    total - db.remain + 1
  }

  /** One statement of one session; ok is whether the database carries it out. */
  function Step(w: World, sid: nat, ok: bool): World
    requires sid in w.sessions
  {
    var s := w.sessions[sid];
    match s.pc
    case AtBegin =>
      Goto(w, sid, if ok then AtCheck else Done(Error))
    case AtCheck =>
      if !ok then Rollback(w, sid, Error)
      else if s.worker in w.db.tickets then Rollback(w, sid, AlreadyHave)
      else Goto(w, sid, AtLock)
    case AtLock =>
      if !ok then Rollback(w, sid, Error)
      else if w.lock.Some? then w  // waits
      else
        var locked := w.(lock := Some(sid), sessions := w.sessions[sid := s.(pc := AtDecrement, seen := w.db.remain)]);
        if w.db.remain == 0 then Rollback(locked, sid, NoTicket) else locked
    case AtDecrement =>
      if !ok then Rollback(w, sid, Error)
      else w.(sessions := w.sessions[sid := s.(pc := AtInsert, decremented := true)])
    case AtInsert =>
      if !ok || s.worker in w.db.tickets then Rollback(w, sid, Error)
      else w.(sessions := w.sessions[sid := s.(pc := AtCommit, ticket := Some(w.total - s.seen + 1))])
    case AtCommit =>
      if !ok then Rollback(w, sid, Error)
      else
        w.(db := Db(if s.decremented then w.db.remain - 1 else w.db.remain,
                    if s.ticket.Some? then w.db.tickets[s.worker := s.ticket.value] else w.db.tickets),
           lock := if w.lock == Some(sid) then None else w.lock,
           sessions := w.sessions[sid := s.(pc := Done(Success), decremented := false, ticket := None)],
           log := w.log + [(sid, s.worker)])
    case Done(_) => w
  }

  // ----- runs

  datatype Event = Arrive(sid: nat, worker: string) | Execute(sid: nat, ok: bool)

  /** Nothing happens when an event makes no sense: a session id in use, or one that is not. */
  function Apply(w: World, e: Event): World {
    match e
    case Arrive(sid, worker) =>
      if sid in w.sessions then w else
        w.(sessions := w.sessions[sid := Session(worker, AtBegin, 0, false, None)])
    case Execute(sid, ok) =>
      if sid in w.sessions then Step(w, sid, ok) else w
  }

  function Run(w: World, events: seq<Event>): World
    decreases |events|
  {
    if events == [] then w else Run(Apply(w, events[0]), events[1..])
  }

  // ----- what holds after every run

  predicate HoldsLock(s: Session) {
    s.pc.AtDecrement? || s.pc.AtInsert? || s.pc.AtCommit?
  }

  ghost predicate SessionOk(w: World, sid: nat)
    requires sid in w.sessions
  {
    var s := w.sessions[sid];
    && (w.lock == Some(sid) <==> HoldsLock(s))
    && (s.decremented <==> s.pc.AtInsert? || s.pc.AtCommit?)
    && (s.ticket.Some? <==> s.pc.AtCommit?)
    && (HoldsLock(s) ==> s.seen == w.db.remain && w.db.remain != 0)
    && (s.pc.AtCommit? ==> s.ticket == Some(NextNumber(w.total, w.db)) && s.worker !in w.db.tickets)
    && (s.pc == Done(Success) <==> (sid, s.worker) in w.log)
  }

  /** One sale as one atomic action. */
  function Sell(total: int, db: Db, worker: string): Db {
    Db(db.remain - 1, db.tickets[worker := NextNumber(total, db)])
  }

  /** The sales of a log, one after the other, nothing else in between. */
  function SellAll(total: int, log: seq<(nat, string)>): Db {
    if log == [] then Db(total, map[]) else Sell(total, SellAll(total, log[..|log| - 1]), log[|log| - 1].1)
  }

  ghost predicate LogOk(w: World) {
    && w.db == SellAll(w.total, w.log)
    && (forall i, j {:trigger w.log[i], w.log[j]} | 0 <= i < j < |w.log| ::
      w.log[i].0 != w.log[j].0 && w.log[i].1 != w.log[j].1)
    && (forall e {:trigger e in w.log} | e in w.log :: e.0 in w.sessions && e.1 == w.sessions[e.0].worker)
  }

  ghost predicate Inv(w: World) {
    && (forall sid {:trigger SessionOk(w, sid)} | sid in w.sessions :: SessionOk(w, sid))
    && (w.lock.Some? ==> w.lock.value in w.sessions)
    && LogOk(w)
  }

  /** The i-th sale of the log issued ticket i + 1. */
  predicate Issued(tickets: map<string, int>, log: seq<(nat, string)>, i: nat)
    requires i < |log|
  {
    log[i].1 in tickets && tickets[log[i].1] == i + 1
  }

  /** The worker's ticket comes from one of the first n sales. */
  predicate FromSale(tickets: map<string, int>, log: seq<(nat, string)>, n: nat, worker: string)
    requires worker in tickets && n <= |log|
  {
    1 <= tickets[worker] <= n && log[tickets[worker] - 1].1 == worker
  }

  /** The first n sales of the log are the tickets. */
  ghost predicate TicketsOf(tickets: map<string, int>, log: seq<(nat, string)>, n: nat)
    requires n <= |log|
  {
    && |tickets| == n
    && (forall i {:trigger Issued(tickets, log, i)} | 0 <= i < n :: Issued(tickets, log, i))
    && (forall worker {:trigger FromSale(tickets, log, n, worker)} | worker in tickets ::
          FromSale(tickets, log, n, worker))
  }

  lemma IssuedLater(tickets: map<string, int>, log: seq<(nat, string)>, n: nat, i: nat)
    requires i <= n < |log| && (i < n ==> Issued(tickets, log, i) && log[i].1 != log[n].1)
    ensures Issued(tickets[log[n].1 := n + 1], log, i)
  {
  }

  lemma FromSaleLater(tickets: map<string, int>, log: seq<(nat, string)>, n: nat, worker: string)
    requires n < |log| && (worker != log[n].1 ==> worker in tickets && FromSale(tickets, log, n, worker))
    ensures FromSale(tickets[log[n].1 := n + 1], log, n + 1, worker)
  {
  }

  lemma NotYet(tickets: map<string, int>, log: seq<(nat, string)>, n: nat)
    requires n < |log| && TicketsOf(tickets, log, n)
    requires forall i {:trigger log[i]} | 0 <= i < n :: log[i].1 != log[n].1
    ensures |tickets[log[n].1 := n + 1]| == n + 1
  {
    var worker, after := log[n].1, tickets[log[n].1 := n + 1];
    forall w | w in tickets ensures w != worker {
      assert FromSale(tickets, log, n, w);
    }
    assert after.Keys == tickets.Keys + {worker} && |after.Keys| == n + 1;
  }

  lemma OneMoreTicket(tickets: map<string, int>, log: seq<(nat, string)>, n: nat)
    requires n < |log| && TicketsOf(tickets, log, n)
    requires forall i {:trigger log[i]} | 0 <= i < n :: log[i].1 != log[n].1
    ensures TicketsOf(tickets[log[n].1 := n + 1], log, n + 1)
  {
    hide Issued, FromSale;
    NotYet(tickets, log, n);
    var after := tickets[log[n].1 := n + 1];
    forall i | 0 <= i < n + 1 ensures Issued(after, log, i) {
      IssuedLater(tickets, log, n, i);
    }
    forall worker | worker in after ensures FromSale(after, log, n + 1, worker) {
      FromSaleLater(tickets, log, n, worker);
    }
  }

  lemma SellLast(total: int, log: seq<(nat, string)>)
    requires log != []
    ensures var n := |log| - 1;
      var prev := SellAll(total, log[..n]);
      SellAll(total, log) == Db(prev.remain - 1, prev.tickets[log[n].1 := total - prev.remain + 1])
  {
  }

  /** What a log of sales amounts to. */
  lemma {:induction false} SellAllIs(total: int, log: seq<(nat, string)>, n: nat)
    requires n <= |log|
    requires forall i, j {:trigger log[i], log[j]} | 0 <= i < j < |log| :: log[i].1 != log[j].1
    ensures SellAll(total, log[..n]).remain == total - n
    ensures TicketsOf(SellAll(total, log[..n]).tickets, log, n)
  {
    if n > 0 {
      var prev := SellAll(total, log[..n - 1]);
      SellAllIs(total, log, n - 1);
      SellLast(total, log[..n]);
      assert log[..n][..n - 1] == log[..n - 1];
      OneMoreTicket(prev.tickets, log, n - 1);
    }
  }

  lemma NewTaskSound(total: int)
    ensures Inv(NewTask(total))
  {
  }

  lemma ApplySound(w: World, e: Event)
    requires Inv(w)
    ensures Inv(Apply(w, e)) && Apply(w, e).total == w.total
  {
    match e
    case Arrive(sid, worker) =>
      forall id | id in Apply(w, e).sessions ensures SessionOk(Apply(w, e), id) {
        assert id in w.sessions ==> SessionOk(w, id);
      }
    case Execute(sid, ok) =>
      if sid in w.sessions {
        StepSound(w, sid, ok);
      }
  }

  lemma StepSound(w: World, sid: nat, ok: bool)
    requires Inv(w) && sid in w.sessions
    ensures Inv(Step(w, sid, ok))
  {
    var s := w.sessions[sid];
    if ok && s.pc.AtCommit? {
      CommitSound(w, sid);
    } else {
      hide LogOk, SessionOk, HoldsLock;
      StepLog(w, sid, ok);
      forall id | id in Step(w, sid, ok).sessions ensures SessionOk(Step(w, sid, ok), id) {
        OtherStep(w, sid, ok, id);
      }
    }
  }

  lemma StepLog(w: World, sid: nat, ok: bool)
    requires LogOk(w) && sid in w.sessions && !(ok && w.sessions[sid].pc.AtCommit?)
    ensures LogOk(Step(w, sid, ok)) && Step(w, sid, ok).sessions.Keys == w.sessions.Keys
  {
    hide LogOk;
    LogKept(w, Step(w, sid, ok));
  }

  lemma LogKept(w: World, v: World)
    requires LogOk(w) && v.total == w.total && v.db == w.db && v.log == w.log
    requires forall id | id in w.sessions :: id in v.sessions && v.sessions[id].worker == w.sessions[id].worker
    ensures LogOk(v)
  {
  }

  /** No statement but a successful commit disturbs a session, its own or another. */
  lemma OtherStep(w: World, sid: nat, ok: bool, id: nat)
    requires Inv(w) && sid in w.sessions && id in w.sessions && !(ok && w.sessions[sid].pc.AtCommit?)
    ensures id in Step(w, sid, ok).sessions && SessionOk(Step(w, sid, ok), id)
  {
    assert SessionOk(w, sid) && SessionOk(w, id);
  }

  lemma CommitSound(w: World, sid: nat)
    requires Inv(w) && sid in w.sessions && w.sessions[sid].pc.AtCommit?
    ensures Inv(Step(w, sid, true))
  {
    CommitLog(w, sid);
    forall id | id in Step(w, sid, true).sessions ensures SessionOk(Step(w, sid, true), id) {
      CommitSession(w, sid, id);
    }
  }

  /** A commit is one sale, made to a worker without a ticket. */
  lemma CommitLog(w: World, sid: nat)
    requires Inv(w) && sid in w.sessions && w.sessions[sid].pc.AtCommit?
    ensures LogOk(Step(w, sid, true))
    ensures Step(w, sid, true).db == Sell(w.total, w.db, w.sessions[sid].worker)
  {
    var v := Step(w, sid, true);
    assert SessionOk(w, sid);
    assert v.log[..|v.log| - 1] == w.log;
    SellLast(v.total, v.log);
    LogIs(w);
    hide SellAll, TicketsOf;
    forall i, j | 0 <= i < j < |v.log| ensures v.log[i].0 != v.log[j].0 && v.log[i].1 != v.log[j].1 {
      assert v.log[i] in w.log && v.log[i] == w.log[i];
      if j < |w.log| {
        assert v.log[j] == w.log[j];
      } else {
        LogTicket(w, i);
      }
    }
  }

  /** What is committed, read off the log. */
  lemma LogIs(w: World)
    requires LogOk(w)
    ensures w.db.remain == w.total - |w.log| && TicketsOf(w.db.tickets, w.log, |w.log|)
  {
    SellAllIs(w.total, w.log, |w.log|);
    assert w.log[..|w.log|] == w.log;
  }

  lemma LogTicket(w: World, i: nat)
    requires TicketsOf(w.db.tickets, w.log, |w.log|) && i < |w.log|
    ensures w.log[i].1 in w.db.tickets && w.db.tickets[w.log[i].1] == i + 1
  {
    assert Issued(w.db.tickets, w.log, i);
  }

  lemma CommitSession(w: World, sid: nat, id: nat)
    requires Inv(w) && sid in w.sessions && id in w.sessions && w.sessions[sid].pc.AtCommit?
    ensures id in Step(w, sid, true).sessions && SessionOk(Step(w, sid, true), id)
  {
    var v := Step(w, sid, true);
    assert SessionOk(w, sid) && SessionOk(w, id);
    assert (id, v.sessions[id].worker) in v.log <==>
      (id, v.sessions[id].worker) in w.log || (id, v.sessions[id].worker) == (sid, w.sessions[sid].worker);
  }

  lemma {:induction false} RunSound(w: World, events: seq<Event>)
    requires Inv(w)
    ensures Inv(Run(w, events)) && Run(w, events).total == w.total
    decreases |events|
  {
    if events != [] {
      ApplySound(w, events[0]);
      RunSound(Apply(w, events[0]), events[1..]);
    }
  }

  // ----- what is promised of a task put on sale

  /**
   In every interleaving of any number of sessions the stock and the tickets add up, the stock does
   not go below zero, and the numbers issued are exactly 1 .. sold, each once.
   */
  lemma NoOverselling(total: nat, events: seq<Event>)
    ensures var db := Run(NewTask(total), events).db;
      && 0 <= db.remain && db.remain + |db.tickets| == total
      && (forall worker {:trigger db.tickets[worker]} | worker in db.tickets :: 1 <= db.tickets[worker] <= |db.tickets|)
      && (forall n {:trigger IsIssued(db, n)} | 1 <= n <= |db.tickets| :: IsIssued(db, n))
      && (forall a, b {:trigger db.tickets[a], db.tickets[b]} | a in db.tickets && b in db.tickets && a != b ::
        db.tickets[a] != db.tickets[b])
  {
    var w := Run(NewTask(total), events);
    NewTaskSound(total);
    RunSound(NewTask(total), events);
    LogIs(w);
    StockStays(total, events);
    hide Run, Inv, LogOk;
    forall n | 1 <= n <= |w.db.tickets| ensures IsIssued(w.db, n) {
      LogTicket(w, n - 1);
    }
    forall worker | worker in w.db.tickets ensures FromSale(w.db.tickets, w.log, |w.log|, worker) {
    }
  }

  ghost predicate IsIssued(db: Db, n: int) {
    exists worker :: worker in db.tickets && db.tickets[worker] == n
  }

  ghost predicate InStock(w: World) {
    w.db.remain >= 0
  }

  lemma {:induction false} StockRuns(w: World, events: seq<Event>)
    requires Inv(w) && InStock(w)
    ensures InStock(Run(w, events))
    decreases |events|
  {
    if events != [] {
      ApplySound(w, events[0]);
      if events[0].Execute? && events[0].sid in w.sessions {
        assert SessionOk(w, events[0].sid);
      }
      StockRuns(Apply(w, events[0]), events[1..]);
    }
  }

  lemma StockStays(total: nat, events: seq<Event>)
    ensures InStock(Run(NewTask(total), events))
  {
    NewTaskSound(total);
    StockRuns(NewTask(total), events);
  }

  /** One undisturbed session, every statement of which succeeds. */
  const ONE_SALE: seq<Event> := [Arrive(0, "w")] + THREE + THREE

  lemma OneSale(total: int)
    requires total != 0
    ensures Run(NewTask(total), ONE_SALE).db == Db(total - 1, map["w" := 1])
  {
    var w0 := Apply(NewTask(total), Arrive(0, "w"));
    var w3 := Run(w0, [Execute(0, true), Execute(0, true), Execute(0, true)]);
    assert w3 == w0.(lock := Some(0), sessions := map[0 := Session("w", AtDecrement, total, false, None)]) by {
      RunThree(w0, Execute(0, true));
    }
    RunThree(w3, Execute(0, true));
    RunConcat(NewTask(total), [Arrive(0, "w")], THREE);
    RunConcat(NewTask(total), [Arrive(0, "w")] + THREE, THREE);
    assert Run(NewTask(total), [Arrive(0, "w")]) == w0;
  }

  const THREE: seq<Event> := [Execute(0, true), Execute(0, true), Execute(0, true)]

  lemma RunNext(w: World, e: Event, rest: seq<Event>)
    ensures Run(w, [e] + rest) == Run(Apply(w, e), rest)
  {
    assert ([e] + rest)[1..] == rest;
  }

  lemma RunThree(w: World, e: Event)
    ensures Run(w, [e, e, e]) == Apply(Apply(Apply(w, e), e), e)
  {
    hide Apply;
    assert [e, e, e] == [e] + [e, e] && [e, e] == [e] + [e] && [e] == [e] + [];
    RunNext(w, e, [e, e]);
    RunNext(Apply(w, e), e, [e]);
    RunNext(Apply(Apply(w, e), e), e, []);
  }

  lemma {:induction false} RunConcat(w: World, a: seq<Event>, b: seq<Event>)
    ensures Run(w, a + b) == Run(Run(w, a), b)
    decreases |a|
  {
    if a == [] {
      assert a + b == b;
    } else {
      assert (a + b)[1..] == a[1..] + b;
      RunConcat(Apply(w, a[0]), a[1..], b);
    }
  }

  /** How many tickets a task of the given Total_number announces. */
  function Announced(total: int): nat {
    if total < 0 then 0 else total
  }

  ghost predicate CanOversell(total: int) {
    exists events :: |Run(NewTask(total), events).db.tickets| > Announced(total)
  }

  /**
   Total_number comes from the client unchecked, and the only guard of a sale is that the stock is
   not exactly zero: more tickets than announced can be sold exactly when the number is negative.
   */
  lemma OversoldIffNegative(total: int)
    ensures CanOversell(total) <==> total < 0
  {
    if total < 0 {
      OneSale(total);
      assert |Run(NewTask(total), ONE_SALE).db.tickets| > Announced(total);
    } else {
      forall events ensures |Run(NewTask(total), events).db.tickets| <= Announced(total) {
        NoOverselling(total, events);
      }
    }
  }

  /** However often a worker tries, at most one of the sessions succeeds. */
  lemma OneTicketPerWorker(total: int, events: seq<Event>, a: nat, b: nat)
    requires var w := Run(NewTask(total), events);
      && a in w.sessions && b in w.sessions && w.sessions[a].worker == w.sessions[b].worker
      && w.sessions[a].pc == Done(Success) && w.sessions[b].pc == Done(Success)
    ensures a == b
  {
    var w := Run(NewTask(total), events);
    NewTaskSound(total);
    RunSound(NewTask(total), events);
    assert SessionOk(w, a) && SessionOk(w, b);
    var i :| 0 <= i < |w.log| && w.log[i] == (a, w.sessions[a].worker);
    var j :| 0 <= j < |w.log| && w.log[j] == (b, w.sessions[b].worker);
    LogDistinct(w, i, j);
  }

  lemma LogDistinct(w: World, i: nat, j: nat)
    requires LogOk(w) && i < |w.log| && j < |w.log|
    ensures i != j ==> w.log[i].0 != w.log[j].0 && w.log[i].1 != w.log[j].1
  {
  }

  /**
   The interleaved sessions amount to atomic sales: what is committed is what the successful
   sessions alone would have left, one after the other.  A session that ended in any other way
   left nothing: neither in the database, nor a lock, nor a pending write.
   */
  lemma RunIsSerial(total: int, events: seq<Event>, sid: nat)
    requires sid in Run(NewTask(total), events).sessions
    ensures var w := Run(NewTask(total), events);
      && w.db == SellAll(total, w.log)
      && (w.sessions[sid].pc == Done(Success) <==> exists i :: 0 <= i < |w.log| && w.log[i].0 == sid)
      && (w.sessions[sid].pc.Done? ==>
        w.lock != Some(sid) && !w.sessions[sid].decremented && w.sessions[sid].ticket.None?)
  {
    var w := Run(NewTask(total), events);
    NewTaskSound(total);
    RunSound(NewTask(total), events);
    assert SessionOk(w, sid);
    if i :| 0 <= i < |w.log| && w.log[i].0 == sid {
      assert w.log[i] in w.log && w.log[i] == (sid, w.sessions[sid].worker);
    }
    if (sid, w.sessions[sid].worker) in w.log {
      var i :| 0 <= i < |w.log| && w.log[i] == (sid, w.sessions[sid].worker);
      assert w.log[i].0 == sid;
    }
  }

  /** A statement changes what is committed exactly when it is a commit that succeeds, and then by one sale. */
  lemma StepEffect(w: World, sid: nat, ok: bool)
    requires Inv(w) && sid in w.sessions
    ensures Step(w, sid, ok).db ==
      if ok && w.sessions[sid].pc.AtCommit? then Sell(w.total, w.db, w.sessions[sid].worker) else w.db
    ensures Step(w, sid, ok).sessions[sid].pc == Done(Success) <==>
      w.sessions[sid].pc == Done(Success) || (ok && w.sessions[sid].pc.AtCommit?)
  {
    assert SessionOk(w, sid);
    if ok && w.sessions[sid].pc.AtCommit? {
      CommitLog(w, sid);
    }
  }

  /**
   How a session that has not ended may end, and when: each reply has its one cause.  It waits, and
   nothing happens, exactly when it asks for the row while another session has it locked.
   */
  lemma StepReplies(w: World, sid: nat, ok: bool)
    requires Inv(w) && sid in w.sessions && !w.sessions[sid].pc.Done?
    ensures sid in Step(w, sid, ok).sessions
    ensures var s, after := w.sessions[sid], Step(w, sid, ok).sessions[sid].pc;
      && (after == Done(AlreadyHave) <==> s.pc.AtCheck? && ok && s.worker in w.db.tickets)
      && (after == Done(NoTicket) <==> s.pc.AtLock? && ok && w.lock.None? && w.db.remain == 0)
      && (after == Done(Error) <==> !ok || (s.pc.AtInsert? && s.worker in w.db.tickets))
      && (after == Done(Success) <==> s.pc.AtCommit? && ok)
      && (after == s.pc <==> s.pc.AtLock? && ok && w.lock.Some?)
    ensures Step(w, sid, ok).sessions[sid].pc == w.sessions[sid].pc ==> Step(w, sid, ok) == w
  {
    assert SessionOk(w, sid);
  }

  /** A statement touches no session but its own, and never the lock of another. */
  lemma StepFrame(w: World, sid: nat, ok: bool, id: nat)
    requires Inv(w) && sid in w.sessions
    ensures id in Step(w, sid, ok).sessions <==> id in w.sessions
    ensures id in w.sessions ==> Step(w, sid, ok).sessions[id].worker == w.sessions[id].worker
    ensures id in w.sessions && id != sid ==> Step(w, sid, ok).sessions[id] == w.sessions[id]
    ensures w.lock.Some? && w.lock != Some(sid) ==> Step(w, sid, ok).lock == w.lock
  {
    assert SessionOk(w, sid);
  }

  /** A refusal stays true: the worker has a ticket; the stock the session read, and the stock, is zero. */
  ghost predicate RefusalOk(w: World, sid: nat)
    requires sid in w.sessions
  {
    && (w.sessions[sid].pc == Done(AlreadyHave) ==> w.sessions[sid].worker in w.db.tickets)
    && (w.sessions[sid].pc == Done(NoTicket) ==> w.sessions[sid].seen == 0 && w.db.remain == 0)
  }

  lemma StepRefusal(w: World, sid: nat, ok: bool, id: nat)
    requires Inv(w) && sid in w.sessions && id in w.sessions && RefusalOk(w, id)
    ensures id in Step(w, sid, ok).sessions && RefusalOk(Step(w, sid, ok), id)
  {
    assert SessionOk(w, sid);
    StepEffect(w, sid, ok);
  }

  lemma {:induction false} RefusalsStay(w: World, events: seq<Event>, sid: nat)
    requires Inv(w) && (sid in w.sessions ==> RefusalOk(w, sid))
    ensures sid in Run(w, events).sessions ==> RefusalOk(Run(w, events), sid)
    decreases |events|
  {
    if events != [] {
      ApplySound(w, events[0]);
      if events[0].Execute? && events[0].sid in w.sessions && sid in w.sessions {
        StepRefusal(w, events[0].sid, events[0].ok, sid);
      } else if events[0].Execute? && events[0].sid in w.sessions {
        StepFrame(w, events[0].sid, events[0].ok, sid);
      }
      RefusalsStay(Apply(w, events[0]), events[1..], sid);
    }
  }

  /**
   In every interleaving a worker who is told to have a ticket has one, and when a session is told
   that there is none left the stock it read under the lock was zero and stays so.
   */
  lemma RefusedRightly(total: int, events: seq<Event>, sid: nat)
    requires sid in Run(NewTask(total), events).sessions
    ensures var w := Run(NewTask(total), events);
      && (w.sessions[sid].pc == Done(AlreadyHave) ==> w.sessions[sid].worker in w.db.tickets)
      && (w.sessions[sid].pc == Done(NoTicket) ==> w.sessions[sid].seen == 0 && w.db.remain == 0)
  {
    NewTaskSound(total);
    RefusalsStay(NewTask(total), events, sid);
  }

  /** A session that failed had a statement fail, or its worker bought a ticket in another session meanwhile. */
  lemma {:induction false} FailedRightly(w: World, events: seq<Event>, sid: nat)
    requires Inv(w) && sid in Run(w, events).sessions && Run(w, events).sessions[sid].pc == Done(Error)
    requires sid in w.sessions ==> w.sessions[sid].pc != Done(Error)
    ensures Execute(sid, false) in events || Run(w, events).sessions[sid].worker in Run(w, events).db.tickets
    decreases |events|
  {
    if events != [] {
      var v := Apply(w, events[0]);
      ApplySound(w, events[0]);
      if sid in v.sessions && v.sessions[sid].pc == Done(Error) {
        var e := events[0];
        assert e.Execute? && e.sid in w.sessions;
        StepFrame(w, e.sid, e.ok, sid);
        StepReplies(w, sid, e.ok);
        if e.ok {
          assert v.db == w.db by { StepEffect(w, sid, true); }
          TicketsStay(v, events[1..], v.sessions[sid].worker);
          WorkerStays(v, events[1..], sid);
        } else {
          assert events[0] in events;
        }
      } else {
        FailedRightly(v, events[1..], sid);
      }
    }
  }

  lemma {:induction false} WorkerStays(w: World, events: seq<Event>, sid: nat)
    requires Inv(w) && sid in w.sessions
    ensures sid in Run(w, events).sessions && Run(w, events).sessions[sid].worker == w.sessions[sid].worker
    decreases |events|
  {
    if events != [] {
      ApplySound(w, events[0]);
      if events[0].Execute? && events[0].sid in w.sessions {
        StepFrame(w, events[0].sid, events[0].ok, sid);
      }
      WorkerStays(Apply(w, events[0]), events[1..], sid);
    }
  }

  /** An issued ticket is never taken back or renumbered. */
  lemma {:induction false} TicketsStay(w: World, events: seq<Event>, worker: string)
    requires Inv(w) && worker in w.db.tickets
    ensures worker in Run(w, events).db.tickets && Run(w, events).db.tickets[worker] == w.db.tickets[worker]
    decreases |events|
  {
    if events != [] {
      var v := Apply(w, events[0]);
      ApplySound(w, events[0]);
      if events[0].Execute? && events[0].sid in w.sessions {
        var sid := events[0].sid;
        StepEffect(w, sid, events[0].ok);
        assert SessionOk(w, sid);
      }
      TicketsStay(v, events[1..], worker);
    }
  }

  /** Nobody waits forever on a session that goes on: within three statements the lock is free again. */
  lemma LockIsReleased(w: World, ok1: bool, ok2: bool, ok3: bool)
    requires Inv(w) && w.lock.Some?
    ensures var sid := w.lock.value;
      || Step(w, sid, ok1).lock.None?
      || Step(Step(w, sid, ok1), sid, ok2).lock.None?
      || Step(Step(Step(w, sid, ok1), sid, ok2), sid, ok3).lock.None?
  {
    assert SessionOk(w, w.lock.value);
  }
}
