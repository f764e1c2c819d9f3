/**
 The transaction of ScrambleView::process as one session executes it, early exits and all, over a
 database object.  Run without interference it is seven events of the interleaved model.
 */
module ScrambleView {
  import opened Options
  import opened TicketSale

  /** The task row, the ticket table, and what each session has done so far. */
  class Database {
    const total: int
    var remain: int
    var tickets: map<string, int>
    var lock: Option<nat>
    var sessions: map<nat, Session>
    var log: seq<(nat, string)>

    ghost function State(): World
      reads this
    {
      World(total, Db(remain, tickets), lock, sessions, log)
    }

    /** CreatetaskView::process, successful. */
    constructor (total: int)
      ensures State() == NewTask(total)
    {
      this.total, remain, tickets := total, total, map[];
      lock, sessions, log := None, map[], [];
    }

    /** A connection is lent to the session. */
    method Open(sid: nat, worker: string)
      requires sid !in sessions
      modifies this
      ensures State() == Apply(old(State()), Arrive(sid, worker))
    {
      sessions := sessions[sid := Session(worker, AtBegin, 0, false, None)];
    }

    method Begin(sid: nat, ok: bool) returns (done: bool)
      requires sid in sessions
      modifies this
      ensures done == ok && State() == if ok then Goto(old(State()), sid, AtCheck) else old(State())
    {
      if ok {
        sessions := sessions[sid := sessions[sid].(pc := AtCheck)];
      }
      done := ok;
    }

    /** select * from <task>_table where workername = ...: None for a failed query, else the row count. */
    method CountTickets(sid: nat, ok: bool) returns (rows: Option<nat>)
      requires sid in sessions
      modifies this
      ensures rows == if ok then Some(if old(sessions)[sid].worker in tickets then 1 else 0) else None
      ensures State() == if ok then Goto(old(State()), sid, AtLock) else old(State())
    {
      if !ok {
        return None;
      }
      rows := Some(if sessions[sid].worker in tickets then 1 else 0);
      sessions := sessions[sid := sessions[sid].(pc := AtLock)];
    }

    /** select * from task ... for update: total_number and remain_number, the row now locked. */
    method SelectForUpdate(sid: nat, ok: bool) returns (row: Option<(int, int)>)
      requires sid in sessions && lock.None?
      modifies this
      ensures row == if ok then Some((total, remain)) else None
      ensures State() == if !ok then old(State()) else
        old(State()).(lock := Some(sid),
          sessions := old(sessions)[sid := old(sessions)[sid].(pc := AtDecrement, seen := remain)])
    {
      if !ok {
        return None;
      }
      lock := Some(sid);
      sessions := sessions[sid := sessions[sid].(pc := AtDecrement, seen := remain)];
      row := Some((total, remain));
    }

    /** update task set remain_number = remain_number - 1, uncommitted. */
    method Decrement(sid: nat, ok: bool) returns (done: bool)
      requires sid in sessions
      modifies this
      ensures done == ok
      ensures State() == if !ok then old(State()) else
        old(State()).(sessions := old(sessions)[sid := old(sessions)[sid].(pc := AtInsert, decremented := true)])
    {
      if ok {
        sessions := sessions[sid := sessions[sid].(pc := AtInsert, decremented := true)];
      }
      done := ok;
    }

    /** insert into <task>_table, uncommitted; the primary key refuses a second row for a worker. */
    method Insert(sid: nat, number: int, ok: bool) returns (done: bool)
      requires sid in sessions
      modifies this
      ensures done == (ok && old(sessions)[sid].worker !in tickets)
      ensures State() == if !done then old(State()) else
        old(State()).(sessions := old(sessions)[sid := old(sessions)[sid].(pc := AtCommit, ticket := Some(number))])
    {
      done := ok && sessions[sid].worker !in tickets;
      if done {
        sessions := sessions[sid := sessions[sid].(pc := AtCommit, ticket := Some(number))];
      }
    }

    method Commit(sid: nat, ok: bool) returns (done: bool)
      requires sid in sessions && sessions[sid].pc.AtCommit?
      modifies this
      ensures done == ok
      ensures State() == if ok then Step(old(State()), sid, true) else old(State())
    {
      done := ok;
      if !ok {
        return;
      }
      var s := sessions[sid];
      if s.decremented {
        remain := remain - 1;
      }
      if s.ticket.Some? {
        tickets := tickets[s.worker := s.ticket.value];
      }
      if lock == Some(sid) {
        lock := None;
      }
      sessions := sessions[sid := s.(pc := Done(Success), decremented := false, ticket := None)];
      log := log + [(sid, s.worker)];
    }

    /** The session ends without a transaction to roll back. */
    method Leave(sid: nat, reply: Reply)
      requires sid in sessions
      modifies this
      ensures State() == Goto(old(State()), sid, Done(reply))
    {
      sessions := sessions[sid := sessions[sid].(pc := Done(reply))];
    }

    method RollBack(sid: nat, reply: Reply)
      requires sid in sessions
      modifies this
      ensures State() == Rollback(old(State()), sid, reply)
    {
      if lock == Some(sid) {
        lock := None;
      }
      sessions := sessions[sid := sessions[sid].(pc := Done(reply), decremented := false, ticket := None)];
    }
  }

  /** Which of a session's six statements the database carries out. */
  datatype Outcomes = Outcomes(begin: bool, check: bool, lock: bool, decrement: bool, insert: bool, commit: bool)
  {
    predicate All() {
      begin && check && lock && decrement && insert && commit
    }
  }

  function Script(sid: nat, worker: string, ok: Outcomes): seq<Event> {
    [Arrive(sid, worker), Execute(sid, ok.begin), Execute(sid, ok.check), Execute(sid, ok.lock),
     Execute(sid, ok.decrement), Execute(sid, ok.insert), Execute(sid, ok.commit)]
  }

  function Solo(w: World, sid: nat, worker: string, ok: Outcomes): World {
    var w1 := Apply(Apply(w, Arrive(sid, worker)), Execute(sid, ok.begin));
    var w3 := Apply(Apply(w1, Execute(sid, ok.check)), Execute(sid, ok.lock));
    Apply(Apply(Apply(w3, Execute(sid, ok.decrement)), Execute(sid, ok.insert)), Execute(sid, ok.commit))
  }

  /** The statements up to the lock: the session is over, with nothing changed, or holds the lock. */
  lemma SoloReads(w: World, sid: nat, worker: string, ok: Outcomes)
    requires sid !in w.sessions && w.lock.None?
    ensures var w2 := Apply(Apply(w, Arrive(sid, worker)), Execute(sid, ok.begin));
      var v := Apply(Apply(w2, Execute(sid, ok.check)), Execute(sid, ok.lock));
      && sid in v.sessions && v.db == w.db && v.total == w.total
      && if ok.begin && ok.check && ok.lock && worker !in w.db.tickets && w.db.remain != 0
         then v.sessions[sid] == Session(worker, AtDecrement, w.db.remain, false, None) && v.lock == Some(sid)
         else v.lock.None? && v.sessions[sid].pc == Done(
           if ok.begin && ok.check && worker in w.db.tickets then AlreadyHave
           else if ok.begin && ok.check && ok.lock then NoTicket
           else Error)
  {
  }

  /** What one undisturbed session does. */
  lemma SoloEffect(w: World, sid: nat, worker: string, ok: Outcomes)
    requires sid !in w.sessions && w.lock.None?
    ensures var v := Solo(w, sid, worker, ok);
      && sid in v.sessions && v.sessions[sid].pc.Done? && v.lock.None?
      && (v.sessions[sid].pc == Done(Success) <==> ok.All() && worker !in w.db.tickets && w.db.remain != 0)
      && (v.sessions[sid].pc == Done(AlreadyHave) <==> ok.begin && ok.check && worker in w.db.tickets)
      && (v.sessions[sid].pc == Done(NoTicket) <==>
            ok.begin && ok.check && ok.lock && worker !in w.db.tickets && w.db.remain == 0)
      && v.db == if v.sessions[sid].pc == Done(Success) then Sell(w.total, w.db, worker) else w.db
  {
    SoloReads(w, sid, worker, ok);
    var w2 := Apply(Apply(w, Arrive(sid, worker)), Execute(sid, ok.begin));
    var w4 := Apply(Apply(w2, Execute(sid, ok.check)), Execute(sid, ok.lock));
    var w5 := Apply(w4, Execute(sid, ok.decrement));
    var w6 := Apply(w5, Execute(sid, ok.insert));
    assert w6.sessions[sid].pc.Done?
      || w6.sessions[sid] == Session(worker, AtCommit, w.db.remain, true, Some(NextNumber(w.total, w.db)));
  }

  lemma SoloIsRun(w: World, sid: nat, worker: string, ok: Outcomes)
    ensures Solo(w, sid, worker, ok) == Run(w, Script(sid, worker, ok))
  {
    var es := Script(sid, worker, ok);
    RunFrom(w, es, 0);
    var w1 := Apply(w, es[0]);
    RunFrom(w1, es, 1);
    var w2 := Apply(w1, es[1]);
    RunFrom(w2, es, 2);
    var w3 := Apply(w2, es[2]);
    RunFrom(w3, es, 3);
    var w4 := Apply(w3, es[3]);
    RunFrom(w4, es, 4);
    var w5 := Apply(w4, es[4]);
    RunFrom(w5, es, 5);
    var w6 := Apply(w5, es[5]);
    RunFrom(w6, es, 6);
    assert es[7..] == [] && es[0..] == es;
  }

  lemma RunFrom(w: World, es: seq<Event>, i: nat)
    requires i < |es|
    ensures Run(w, es[i..]) == Run(Apply(w, es[i]), es[i + 1..])
  {
    assert es[i..][1..] == es[i + 1..];
  }

  /**
   ScrambleView::process from `begin` on.  It succeeds exactly when every statement does, the worker
   has no ticket yet and there is stock, and has then sold one ticket; otherwise nothing is changed.
   The worker is told of a ticket it has, or that none is left, exactly when that is why.
   */
  method Process(db: Database, sid: nat, worker: string, ok: Outcomes) returns (reply: Reply)
    requires sid !in db.sessions && db.lock.None? && Inv(db.State())
    modifies db
    ensures db.State() == Run(old(db.State()), Script(sid, worker, ok)) && Inv(db.State())
    ensures sid in db.sessions && db.sessions[sid].pc == Done(reply) && db.lock.None?
    ensures reply == Success <==> ok.All() && worker !in old(db.tickets) && old(db.remain) != 0
    ensures reply == AlreadyHave <==> ok.begin && ok.check && worker in old(db.tickets)
    ensures reply == NoTicket <==>
      ok.begin && ok.check && ok.lock && worker !in old(db.tickets) && old(db.remain) == 0
    ensures db.State().db == if reply == Success then Sell(db.total, old(db.State()).db, worker) else old(db.State()).db
  {
    hide Inv, Run;
    ghost var w0 := db.State();
    SoloIsRun(w0, sid, worker, ok);
    RunSound(w0, Script(sid, worker, ok));
    SoloEffect(w0, sid, worker, ok);
    hide Sell;
    reply := Statements(db, sid, worker, ok);
  }

  // What each statement, or an early exit before it, makes of the interleaved model.

  lemma AfterExit(w: World, sid: nat, ok: bool)
    requires sid in w.sessions && w.sessions[sid].pc.Done?
    ensures Apply(w, Execute(sid, ok)) == w
  {
  }

  lemma AtBeginStep(w: World, sid: nat, ok: bool)
    requires sid in w.sessions && w.sessions[sid].pc.AtBegin?
    ensures Apply(w, Execute(sid, ok)) == Goto(w, sid, if ok then AtCheck else Done(Error))
  {
  }

  lemma AtCheckStep(w: World, sid: nat, ok: bool)
    requires sid in w.sessions && w.sessions[sid].pc.AtCheck?
    ensures Apply(w, Execute(sid, ok)) ==
      if !ok then Rollback(w, sid, Error)
      else if w.sessions[sid].worker in w.db.tickets then Rollback(w, sid, AlreadyHave)
      else Goto(w, sid, AtLock)
  {
  }

  lemma AtLockStep(w: World, sid: nat, ok: bool)
    requires sid in w.sessions && w.sessions[sid].pc.AtLock? && w.lock.None?
    ensures Apply(w, Execute(sid, ok)) ==
      if !ok then Rollback(w, sid, Error)
      else if w.db.remain == 0 then Rollback(Locked(w, sid), sid, NoTicket)
      else Locked(w, sid)
  {
  }

  function Locked(w: World, sid: nat): World
    requires sid in w.sessions
  {
    w.(lock := Some(sid), sessions := w.sessions[sid := w.sessions[sid].(pc := AtDecrement, seen := w.db.remain)])
  }

  /** The statements themselves. */
  method Statements(db: Database, sid: nat, worker: string, ok: Outcomes) returns (reply: Reply)
    requires sid !in db.sessions && db.lock.None?
    modifies db
    ensures db.State() == Solo(old(db.State()), sid, worker, ok)
    ensures sid in db.sessions && db.sessions[sid].pc == Done(reply)
  {
    db.Open(sid, worker);
    ghost var w1 := db.State();
    AtBeginStep(w1, sid, ok.begin);
    hide Apply;
    var done := db.Begin(sid, ok.begin);
    if done {
      var row;
      row, reply := Reads(db, sid, ok);
      if row.Some? {
        reply := Writes(db, sid, row.value.0, row.value.1, ok);
        return;
      }
    } else {
      db.Leave(sid, Error);
      reply := Error;
      AfterExit(db.State(), sid, ok.check);
      AfterExit(db.State(), sid, ok.lock);
    }
    AfterExit(db.State(), sid, ok.decrement);
    AfterExit(db.State(), sid, ok.insert);
    AfterExit(db.State(), sid, ok.commit);
  }

  /** The check and the locking read: total_number and remain_number, or None after an early exit. */
  method Reads(db: Database, sid: nat, ok: Outcomes) returns (row: Option<(int, int)>, reply: Reply)
    requires sid in db.sessions && db.sessions[sid].pc.AtCheck? && db.lock.None?
    modifies db
    ensures db.State() == Apply(Apply(old(db.State()), Execute(sid, ok.check)), Execute(sid, ok.lock))
    ensures sid in db.sessions
    ensures if row.Some?
      then db.sessions[sid].pc.AtDecrement? && row.value == (db.total, db.sessions[sid].seen)
      else db.sessions[sid].pc == Done(reply)
  {
    AtCheckStep(db.State(), sid, ok.check);
    hide Apply;
    reply := Error;
    var rows := db.CountTickets(sid, ok.check);
    if rows.None? {
      db.RollBack(sid, Error);
      AfterExit(db.State(), sid, ok.lock);
      return None, Error;
    } else if rows.value == 1 {
      db.RollBack(sid, AlreadyHave);
      AfterExit(db.State(), sid, ok.lock);
      return None, AlreadyHave;
    }
    AtLockStep(db.State(), sid, ok.lock);
    row := db.SelectForUpdate(sid, ok.lock);
    if row.None? {
      db.RollBack(sid, Error);
      return None, Error;
    }
    if row.value.1 == 0 {
      db.RollBack(sid, NoTicket);
      return None, NoTicket;
    }
  }

  /** The part under the lock that writes. */
  method Writes(db: Database, sid: nat, total_number: int, remain_number: int, ok: Outcomes) returns (reply: Reply)
    requires sid in db.sessions && db.sessions[sid].pc.AtDecrement? && total_number == db.total
      && remain_number == db.sessions[sid].seen
    modifies db
    ensures var w5 := Apply(old(db.State()), Execute(sid, ok.decrement));
      db.State() == Apply(Apply(w5, Execute(sid, ok.insert)), Execute(sid, ok.commit))
    ensures sid in db.sessions && db.sessions[sid].pc == Done(reply)
  {
    ghost var w5 := Apply(db.State(), Execute(sid, ok.decrement));
    ghost var w6 := Apply(w5, Execute(sid, ok.insert));
    var done := db.Decrement(sid, ok.decrement);
    if !done {
      db.RollBack(sid, Error);
      assert db.State() == w5 && w6 == w5;
      return Error;
    }
    assert db.State() == w5;
    done := db.Insert(sid, total_number - remain_number + 1, ok.insert);
    if !done {
      db.RollBack(sid, Error);
      assert db.State() == w6;
      return Error;
    }
    assert db.State() == w6;
    done := db.Commit(sid, ok.commit);
    if !done {
      db.RollBack(sid, Error);
      return Error;
    }
    reply := Success;
  }
}
