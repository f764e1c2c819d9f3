/**
 The database connection pool on values: what each critical section under m_queueMutex does to the
 queue of idle connections, and what every run of borrowers, producer and scanner keeps.
 */
module ConnectionSpec {
  import opened Options
  import opened Sequences

  /** maxIdleTime is compared, times 1000, with a difference of clock() readings. */
  datatype Config = Config(initSize: nat, maxSize: int, maxIdleTime: int)

  datatype Idle<C> = Idle(conn: C, alive: int)

  /** open and held are what the process owns: connections not deleted, and those lent out. */
  datatype Pool<C(==)> = Pool(idle: seq<Idle<C>>, cnt: int, held: set<C>, open: set<C>, clock: int)

  predicate Queued<C(==)>(idle: seq<Idle<C>>, c: C) {
    exists i {:trigger idle[i]} | 0 <= i < |idle| :: idle[i].conn == c
  }

  predicate QueuedOnce<C(==)>(idle: seq<Idle<C>>) {
    forall i, j {:trigger idle[i], idle[j]} | 0 <= i < j < |idle| :: idle[i].conn != idle[j].conn
  }

  predicate Sorted<C>(idle: seq<Idle<C>>) {
    forall i, j {:trigger idle[i], idle[j]} | 0 <= i < j < |idle| :: idle[i].alive <= idle[j].alive
  }

  /** Every open connection is idle once or lent to one borrower; the longest idle is in front. */
  ghost predicate Inv<C>(p: Pool<C>) {
    && p.cnt == |p.idle|
    && QueuedOnce(p.idle)
    && Sorted(p.idle)
    && (forall i {:trigger p.idle[i]} | 0 <= i < |p.idle| :: p.idle[i].alive <= p.clock)
    && (forall c {:trigger c in p.open} | c in p.open :: c in p.held || Queued(p.idle, c))
    && (forall i {:trigger p.idle[i]} | 0 <= i < |p.idle| :: p.idle[i].conn in p.open && p.idle[i].conn !in p.held)
    && p.held <= p.open
  }

  /** The clock moves on. */
  function At<C>(p: Pool<C>, now: int): Pool<C> {
    p.(clock := now)
  }

  function Push<C>(p: Pool<C>, c: C): Pool<C> {
    p.(idle := p.idle + [Idle(c, p.clock)], cnt := p.cnt + 1)
  }

  /** new Connection, pushed; c is where it was allocated. */
  function Open<C>(p: Pool<C>, c: C): Pool<C> {
    Push(p.(open := p.open + {c}), c)
  }

  /** The constructor's loop. */
  function OpenAll<C>(p: Pool<C>, cs: seq<C>): Pool<C>
    decreases |cs|
  {
    if cs == [] then p else
      var last := |cs| - 1;
      Open(OpenAll(p, cs[..last]), cs[last])
  }

  function Empty<C>(now: int): Pool<C> {
    Pool([], 0, {}, {}, now)
  }

  /** One pass of getConnection's loop with the lock held: None where it waits or gives up. */
  function Get<C>(p: Pool<C>): (Option<C>, Pool<C>) {
    if p.idle == [] then (None, p) else
      var c := p.idle[0].conn;
      (Some(c), p.(idle := p.idle[1..], cnt := p.cnt - 1, held := p.held + {c}))
  }

  /** The deleter of a borrowed pointer. */
  function Return<C>(p: Pool<C>, c: C): Pool<C> {
    Push(p.(held := p.held - {c}), c)
  }

  predicate Wanted<C>(cfg: Config, p: Pool<C>) {
    p.idle == [] && p.cnt < cfg.maxSize
  }

  /** One pass of the producer. */
  function Produce<C>(cfg: Config, p: Pool<C>, c: C): Pool<C> {
    if Wanted(cfg, p) then Open(p, c) else p
  }

  predicate Expired<C>(cfg: Config, entry: Idle<C>, now: int) {
    now - entry.alive >= cfg.maxIdleTime * 1000
  }

  predicate Scannable<C>(cfg: Config, p: Pool<C>) {
    p.cnt > cfg.initSize && p.idle != [] && Expired(cfg, p.idle[0], p.clock)
  }

  /** The scanner deletes the front connection. */
  function Close<C>(p: Pool<C>): Pool<C>
    requires p.idle != []
  {
    p.(idle := p.idle[1..], cnt := p.cnt - 1, open := p.open - {p.idle[0].conn})
  }

  /** One scan. */
  function Scan<C>(cfg: Config, p: Pool<C>): Pool<C>
    decreases |p.idle|
  {
    if Scannable(cfg, p) then Scan(cfg, Close(p)) else p
  }

  // ----- what each critical section keeps

  /** c is open, neither lent nor idle. */
  lemma PushSound<C>(p: Pool<C>, c: C)
    requires Inv(p.(held := p.held + {c})) && c !in p.held && c in p.open
    ensures Inv(Push(p, c))
  {
    var q := Push(p, c);
    var with := p.(held := p.held + {c});
    forall d | d in q.open ensures d in q.held || Queued(q.idle, d) {
      QueuedPush(p.idle, Idle(c, p.clock), d);
      assert d in with.open;
    }
    forall i | 0 <= i < |q.idle| ensures q.idle[i].conn in q.open && q.idle[i].conn !in q.held {
      if i < |p.idle| {
        assert with.idle[i] == q.idle[i];
      }
    }
    forall i, j | 0 <= i < j < |q.idle| ensures q.idle[i].conn != q.idle[j].conn && q.idle[i].alive <= q.idle[j].alive {
      assert with.idle[i] == q.idle[i];
      if j < |p.idle| {
        assert with.idle[j] == q.idle[j];
      }
    }
  }

  lemma QueuedPush<C>(idle: seq<Idle<C>>, entry: Idle<C>, d: C)
    ensures Queued(idle + [entry], d) <==> d == entry.conn || Queued(idle, d)
  {
    var after := idle + [entry];
    if Queued(idle, d) {
      var i :| 0 <= i < |idle| && idle[i].conn == d;
      assert after[i].conn == d;
    }
    assert after[|idle|] == entry;
  }

  lemma QueuedPop<C>(idle: seq<Idle<C>>, d: C)
    requires QueuedOnce(idle) && idle != []
    ensures Queued(idle[1..], d) <==> d != idle[0].conn && Queued(idle, d)
  {
    var after := idle[1..];
    if Queued(idle, d) && d != idle[0].conn {
      var i :| 0 <= i < |idle| && idle[i].conn == d;
      assert after[i - 1].conn == d;
    }
    if Queued(after, d) {
      var i :| 0 <= i < |after| && after[i].conn == d;
      assert idle[i + 1].conn == d;
      assert idle[0].conn != idle[i + 1].conn;
    }
  }

  lemma ClockSound<C>(p: Pool<C>, now: int)
    requires Inv(p) && p.clock <= now
    ensures Inv(At(p, now))
  {
  }

  /** A connection is opened at an address no open connection has; it is idle, last in the queue. */
  lemma OpenSound<C>(p: Pool<C>, c: C)
    requires Inv(p) && c !in p.open
    ensures Inv(Open(p, c))
    ensures var q := Open(p, c);
      q.idle == p.idle + [Idle(c, p.clock)] && q.open == p.open + {c} && q.held == p.held && q.clock == p.clock
  {
    var q := p.(open := p.open + {c});
    PushSound(q, c);
  }

  /**
   A borrower gets the front connection of the queue, which nobody else has and which has been idle
   longest; those left keep their order.
   */
  lemma GetSound<C>(p: Pool<C>)
    requires Inv(p)
    ensures Inv(Get(p).1)
    ensures Get(p).0.None? <==> p.held == p.open
    ensures Get(p).0.Some? ==>
      var c := Get(p).0.value;
      && c in p.open && c !in p.held
      && Get(p).1.held == p.held + {c} && Get(p).1.open == p.open && Get(p).1.clock == p.clock
      && p.idle != [] && p.idle == [Idle(c, p.idle[0].alive)] + Get(p).1.idle
      && forall i {:trigger p.idle[i]} | 0 <= i < |p.idle| :: p.idle[0].alive <= p.idle[i].alive
    ensures Get(p).0.None? ==> Get(p).1 == p
  {
    if p.idle == [] {
      forall c | c in p.open ensures c in p.held {
        assert !Queued(p.idle, c);
      }
    } else {
      var q := Get(p).1;
      assert p.idle[0].conn in p.open && p.idle[0].conn !in p.held;
      forall d | d in q.open ensures d in q.held || Queued(q.idle, d) {
        QueuedPop(p.idle, d);
      }
    }
  }

  lemma ReturnSound<C>(p: Pool<C>, c: C)
    requires Inv(p) && c in p.held
    ensures Inv(Return(p, c))
    ensures var q := Return(p, c);
      q.idle == p.idle + [Idle(c, p.clock)] && q.open == p.open && q.held == p.held - {c} && q.clock == p.clock
  {
    var q := p.(held := p.held - {c});
    assert q.(held := q.held + {c}) == p;
    assert c in p.open;
    PushSound(q, c);
  }

  lemma CloseSound<C>(p: Pool<C>)
    requires Inv(p) && p.idle != []
    ensures Inv(Close(p))
    ensures p.idle[0].conn !in p.held
  {
    var q := Close(p);
    forall d | d in q.open ensures d in q.held || Queued(q.idle, d) {
      QueuedPop(p.idle, d);
    }
  }

  /** The guard on maxSize looks at idle connections only, and it is looked at when there are none. */
  lemma ProduceSound<C>(cfg: Config, p: Pool<C>, c: C)
    requires Inv(p) && c !in p.open
    ensures Inv(Produce(cfg, p, c))
    ensures Wanted(cfg, p) <==> p.held == p.open && cfg.maxSize > 0
    ensures var q := Produce(cfg, p, c);
      if p.held == p.open && cfg.maxSize > 0
      then q.idle == [Idle(c, p.clock)] && q.open == p.open + {c} && q.held == p.held && q.clock == p.clock
      else q == p
    ensures p.idle == [] ==> (Get(Produce(cfg, p, c)).0.Some? <==> cfg.maxSize > 0)
  {
    OpenSound(p, c);
    GetSound(p);
  }

  /** q is p with connections closed that expired, from the front, and with no more of them than there should be. */
  predicate Scanned<C>(cfg: Config, p: Pool<C>, q: Pool<C>) {
    && q.held == p.held && q.clock == p.clock && q.open <= p.open
    && |q.idle| <= |p.idle| && q.idle == p.idle[|p.idle| - |q.idle|..]
    && (forall i {:trigger p.idle[i]} | 0 <= i < |p.idle| - |q.idle| ::
          p.clock - p.idle[i].alive >= cfg.maxIdleTime * 1000)
    && (|q.idle| <= cfg.initSize || NoneExpired(cfg, q))
    && (|p.idle| <= cfg.initSize ==> q == p)
    && (|p.idle| >= cfg.initSize ==> |q.idle| >= cfg.initSize)
  }

  /**
   A scan closes only idle connections that have expired, from the front, and stops only when no
   more than initSize are idle or none of those left has expired.
   */
  lemma {:induction false} ScanSound<C>(cfg: Config, p: Pool<C>)
    requires Inv(p)
    ensures Inv(Scan(cfg, p)) && Scanned(cfg, p, Scan(cfg, p))
    decreases |p.idle|
  {
    if Scannable(cfg, p) {
      CloseSound(p);
      ScanSound(cfg, Close(p));
      ScannedOneMore(cfg, p, Scan(cfg, Close(p)));
    } else if p.idle != [] && !Expired(cfg, p.idle[0], p.clock) {
      FrontIsOldest(cfg, p);
    }
  }

  lemma ScannedOneMore<C>(cfg: Config, p: Pool<C>, q: Pool<C>)
    requires p.cnt == |p.idle| && Scannable(cfg, p) && Scanned(cfg, Close(p), q)
    ensures Scanned(cfg, p, q)
  {
    hide NoneExpired;
    TailOfTail(p.idle, q.idle);
    forall i | 0 <= i < |p.idle| - |q.idle| ensures Expired(cfg, p.idle[i], p.clock) {
      if i > 0 {
        assert Close(p).idle[i - 1] == p.idle[i];
      }
    }
  }

  lemma TailOfTail<T>(s: seq<T>, t: seq<T>)
    requires |t| < |s| && t == s[1..][|s| - 1 - |t|..]
    ensures t == s[|s| - |t|..]
  {
  }

  predicate NoneExpired<C>(cfg: Config, p: Pool<C>) {
    forall i {:trigger p.idle[i]} | 0 <= i < |p.idle| ::
      p.clock - p.idle[i].alive < cfg.maxIdleTime * 1000
  }

  lemma FrontIsOldest<C>(cfg: Config, p: Pool<C>)
    requires Inv(p) && p.idle != [] && !Expired(cfg, p.idle[0], p.clock)
    ensures NoneExpired(cfg, p)
  {
    forall i | 0 <= i < |p.idle| ensures !Expired(cfg, p.idle[i], p.clock) {
      if i > 0 {
        assert p.idle[0].alive <= p.idle[i].alive;
      }
    }
  }

  // ----- whole runs

  /** Borrowers, producer, scanner and clock in any order; an allocation's address is its input. */
  datatype Step<C> = Borrow | GiveBack(c: C) | ProducerRuns(c: C) | ScannerRuns | Wait(ticks: nat)

  predicate Enabled<C>(p: Pool<C>, step: Step<C>) {
    match step
    case GiveBack(c) => c in p.held
    case ProducerRuns(c) => c !in p.open
    case _ => true
  }

  function Do<C>(cfg: Config, p: Pool<C>, step: Step<C>): Pool<C> {
    match step
    case Borrow => Get(p).1
    case GiveBack(c) => Return(p, c)
    case ProducerRuns(c) => Produce(cfg, p, c)
    case ScannerRuns => Scan(cfg, p)
    case Wait(ticks) => At(p, p.clock + ticks)
  }

  function Start<C>(cs: seq<C>, now: int): Pool<C> {
    OpenAll(Empty(now), cs)
  }

  ghost predicate Reaches<C>(cfg: Config, p: Pool<C>, steps: seq<Step<C>>, q: Pool<C>)
    decreases |steps|
  {
    if steps == [] then q == p else
      Enabled(p, steps[0]) && Reaches(cfg, Do(cfg, p, steps[0]), steps[1..], q)
  }

  lemma {:induction false} StartSound<C>(cs: seq<C>, now: int)
    requires Distinct(cs)
    ensures var p := Start(cs, now);
      && Inv(p) && p.cnt == |cs| && p.held == {} && p.clock == now
      && |p.open| == |cs| && forall c {:trigger c in p.open} | c in p.open :: c in cs
    decreases |cs|
  {
    if cs != [] {
      var last := |cs| - 1;
      DistinctLast(cs);
      StartSound(cs[..last], now);
      OpenSound(Start(cs[..last], now), cs[last]);
      hide Inv;
    }
  }

  lemma DistinctLast<C>(cs: seq<C>)
    requires Distinct(cs) && cs != []
    ensures var last := |cs| - 1;
      && Distinct(cs[..last]) && cs[last] !in cs[..last]
      && forall c {:trigger c in cs} :: c in cs <==> c in cs[..last] || c == cs[last]
  {
    assert cs == cs[..|cs| - 1] + [cs[|cs| - 1]];
  }

  lemma StepSound<C>(cfg: Config, p: Pool<C>, step: Step<C>)
    requires Inv(p) && Enabled(p, step)
    ensures Inv(Do(cfg, p, step))
  {
    match step
    case Borrow => GetSound(p);
    case GiveBack(c) => ReturnSound(p, c);
    case ProducerRuns(c) => ProduceSound(cfg, p, c);
    case ScannerRuns => ScanSound(cfg, p);
    case Wait(ticks) => ClockSound(p, p.clock + ticks);
  }

  /** Every run keeps the pool in order: nothing is lent twice, leaked, or deleted while lent. */
  lemma {:induction false} RunSound<C>(cfg: Config, p: Pool<C>, steps: seq<Step<C>>, q: Pool<C>)
    requires Inv(p) && Reaches(cfg, p, steps, q)
    ensures Inv(q) && q.held <= q.open && |q.open| == q.cnt + |q.held|
    decreases |steps|
  {
    if steps == [] {
      OpenCount(q);
    } else {
      StepSound(cfg, p, steps[0]);
      RunSound(cfg, Do(cfg, p, steps[0]), steps[1..], q);
    }
  }

  /** The count of open connections, from the count of idle ones. */
  lemma {:induction false} OpenCount<C>(p: Pool<C>)
    requires Inv(p)
    ensures p.held <= p.open && |p.open| == p.cnt + |p.held|
    decreases |p.idle|
  {
    if p.idle == [] {
      GetSound(p);
    } else {
      var c := p.idle[0].conn;
      CloseSound(p);
      OpenCount(Close(p));
      assert Queued(p.idle, c);
      assert c in p.open;
    }
  }

  // ----- the order in which connections are lent

  function Conns<C>(idle: seq<Idle<C>>): seq<C> {
    seq(|idle|, i requires 0 <= i < |idle| => idle[i].conn)
  }

  /** What joins the idle ones in a step that leads from p to q: what is given back, or newly open. */
  function Arrival<C>(p: Pool<C>, step: Step<C>, q: Pool<C>): seq<C> {
    match step
    case GiveBack(c) => [c]
    case ProducerRuns(c) => if c in q.open then [c] else []
    case _ => []
  }

  /** What leaves the idle ones: what a borrower gets, or what a scan closes. */
  function Departure<C>(p: Pool<C>, step: Step<C>, q: Pool<C>): seq<C> {
    match step
    case Borrow => if Get(p).0.Some? then [Get(p).0.value] else []
    case ScannerRuns => if |q.idle| <= |p.idle| then Conns(p.idle[..|p.idle| - |q.idle|]) else []
    case _ => []
  }

  function Arrivals<C>(cfg: Config, p: Pool<C>, steps: seq<Step<C>>): seq<C>
    decreases |steps|
  {
    if steps == [] then [] else
      var q := Do(cfg, p, steps[0]);
      Arrival(p, steps[0], q) + Arrivals(cfg, q, steps[1..])
  }

  function Departures<C>(cfg: Config, p: Pool<C>, steps: seq<Step<C>>): seq<C>
    decreases |steps|
  {
    if steps == [] then [] else
      var q := Do(cfg, p, steps[0]);
      Departure(p, steps[0], q) + Departures(cfg, q, steps[1..])
  }

  lemma StepInOrder<C>(cfg: Config, p: Pool<C>, step: Step<C>)
    requires Inv(p) && Enabled(p, step)
    ensures var q := Do(cfg, p, step);
      Conns(p.idle) + Arrival(p, step, q) == Departure(p, step, q) + Conns(q.idle)
  {
    hide Inv, Get, Return, Produce, Scan, Scanned, Conns;
    var q := Do(cfg, p, step);
    match step
    case Borrow =>
      GetSound(p);
      if p.idle != [] && Get(p).0.Some? {
        ConnsConcat([p.idle[0]], q.idle);
        ConnsOne(p.idle[0]);
      }
    case GiveBack(c) =>
      ReturnSound(p, c);
      ConnsConcat(p.idle, [Idle(c, p.clock)]);
      ConnsOne(Idle(c, p.clock));
    case ProducerRuns(c) =>
      ProduceSound(cfg, p, c);
      NoneIdle(p);
      ConnsOne(Idle(c, p.clock));
    case ScannerRuns =>
      ScanTail(cfg, p);
      ConnsConcat(p.idle[..|p.idle| - |q.idle|], q.idle);
    case Wait(ticks) =>
  }

  lemma ConnsOne<C>(entry: Idle<C>)
    ensures Conns([entry]) == [entry.conn]
  {
  }

  lemma ConnsConcat<C>(a: seq<Idle<C>>, b: seq<Idle<C>>)
    ensures Conns(a + b) == Conns(a) + Conns(b)
  {
  }

  lemma NoneIdle<C>(p: Pool<C>)
    requires Inv(p)
    ensures p.held == p.open ==> p.idle == [] && Conns(p.idle) == []
  {
    GetSound(p);
  }

  lemma ScanTail<C>(cfg: Config, p: Pool<C>)
    requires Inv(p)
    ensures var q := Scan(cfg, p);
      |q.idle| <= |p.idle| && p.idle == p.idle[..|p.idle| - |q.idle|] + q.idle
  {
    hide Inv, Scan;
    ScanSound(cfg, p);
  }

  /**
   In every run connections leave the queue, lent or closed, in the order in which they were given
   back or opened, none before one that waited longer, and those that have not left are still there.
   */
  lemma {:induction false} RunInOrder<C>(cfg: Config, p: Pool<C>, steps: seq<Step<C>>, q: Pool<C>)
    requires Inv(p) && Reaches(cfg, p, steps, q)
    ensures Conns(p.idle) + Arrivals(cfg, p, steps) == Departures(cfg, p, steps) + Conns(q.idle)
    decreases |steps|
  {
    if steps != [] {
      hide Inv, Enabled, Do, Arrival, Departure, Conns;
      var r := Do(cfg, p, steps[0]);
      StepSound(cfg, p, steps[0]);
      StepInOrder(cfg, p, steps[0]);
      RunInOrder(cfg, r, steps[1..], q);
      ThenInOrder(Conns(p.idle), Arrival(p, steps[0], r), Departure(p, steps[0], r), Conns(r.idle),
                  Arrivals(cfg, r, steps[1..]), Departures(cfg, r, steps[1..]), Conns(q.idle));
    }
  }

  /** Two steps of a queue are one: before, in and out, between, in and out, after. */
  lemma ThenInOrder<C>(p: seq<C>, a: seq<C>, d: seq<C>, q: seq<C>, b: seq<C>, e: seq<C>, r: seq<C>)
    requires p + a == d + q && q + b == e + r
    ensures p + (a + b) == (d + e) + r
  {
    assert p + (a + b) == (p + a) + b && (d + q) + b == d + (q + b) && d + (e + r) == (d + e) + r;
  }

  // ----- maxSize

  /** No run from p opens more than bound connections. */
  ghost predicate Bounded(cfg: Config, p: Pool<int>, bound: nat) {
    forall steps, q {:trigger Reaches(cfg, p, steps, q)} | Reaches(cfg, p, steps, q) :: |q.open| <= bound
  }

  /** A producer that may open none never adds to the connections. */
  lemma {:induction false} NoGrowth<C>(cfg: Config, p: Pool<C>, steps: seq<Step<C>>, q: Pool<C>)
    requires cfg.maxSize <= 0 && Inv(p) && Reaches(cfg, p, steps, q)
    ensures q.open <= p.open
    decreases |steps|
  {
    if steps != [] {
      var step := steps[0];
      StepSound(cfg, p, step);
      if step.ScannerRuns? {
        ScanSound(cfg, p);
      }
      NoGrowth(cfg, Do(cfg, p, step), steps[1..], q);
    }
  }

  lemma SubsetSize<C>(a: set<C>, b: set<C>)
    requires a <= b
    ensures |a| <= |b|
  {
    var rest := b - a;
    assert b == a + rest;
  }

  /** A run in which no more than staff connections are lent out at a time. */
  ghost predicate ReachesWith<C>(cfg: Config, staff: nat, p: Pool<C>, steps: seq<Step<C>>, q: Pool<C>)
    decreases |steps|
  {
    |p.held| <= staff &&
    if steps == [] then q == p else
      Enabled(p, steps[0]) && ReachesWith(cfg, staff, Do(cfg, p, steps[0]), steps[1..], q)
  }

  lemma {:induction false} WithReaches<C>(cfg: Config, staff: nat, p: Pool<C>, steps: seq<Step<C>>, q: Pool<C>)
    requires ReachesWith(cfg, staff, p, steps, q)
    ensures Reaches(cfg, p, steps, q)
    decreases |steps|
  {
    if steps != [] {
      WithReaches(cfg, staff, Do(cfg, p, steps[0]), steps[1..], q);
    }
  }

  lemma {:induction false} WithThen<C>(
      cfg: Config, staff: nat, p: Pool<C>, a: seq<Step<C>>, q: Pool<C>, b: seq<Step<C>>, r: Pool<C>)
    requires ReachesWith(cfg, staff, p, a, q) && ReachesWith(cfg, staff, q, b, r)
    ensures ReachesWith(cfg, staff, p, a + b, r)
    decreases |a|
  {
    if a == [] {
      assert a + b == b;
    } else {
      assert (a + b)[1..] == a[1..] + b;
      WithThen(cfg, staff, Do(cfg, p, a[0]), a[1..], q, b, r);
    }
  }

  /** Somebody borrows, after the producer has run if nothing was idle: one more is lent out. */
  lemma BorrowOneMore(cfg: Config, p: Pool<int>, staff: nat, unused: int)
      returns (steps: seq<Step<int>>, q: Pool<int>)
    requires cfg.maxSize > 0 && Inv(p) && unused !in p.open && |p.held| < staff
    ensures ReachesWith(cfg, staff, p, steps, q) && Inv(q)
    ensures |q.held| == |p.held| + 1 && q.open <= p.open + {unused}
  {
    steps := [ProducerRuns(unused), Borrow];
    var between := Produce(cfg, p, unused);
    q := Get(between).1;
    ProduceSound(cfg, p, unused);
    GetSound(between);
    GetSound(p);
    assert steps[1..] == [Borrow] && steps[1..][1..] == [];
    assert ReachesWith(cfg, staff, between, [Borrow], q);
    assert Enabled(p, steps[0]);
  }

  /** However many connections are wanted, some run has that many lent out at once. */
  lemma {:induction false} BorrowMany(cfg: Config, p: Pool<int>, staff: nat, next: int, n: nat)
      returns (steps: seq<Step<int>>, q: Pool<int>)
    requires cfg.maxSize > 0 && Inv(p) && |p.held| + n <= staff
    requires forall c {:trigger c in p.open} | c in p.open :: c < next
    ensures ReachesWith(cfg, staff, p, steps, q) && Inv(q) && |q.held| == |p.held| + n
    ensures forall c {:trigger c in q.open} | c in q.open :: c < next + n
    decreases n
  {
    if n == 0 {
      steps, q := [], p;
    } else {
      var first, middle := BorrowOneMore(cfg, p, staff, next);
      var rest;
      rest, q := BorrowMany(cfg, middle, staff, next + 1, n - 1);
      WithThen(cfg, staff, p, first, middle, rest, q);
      steps := first + rest;
    }
  }

  /** n different addresses. */
  function Addresses(n: nat): (cs: seq<int>)
    ensures |cs| == n && Distinct(cs) && forall c | c in cs :: c < n
  {
    seq(n, i => i)
  }

  // With as many borrowers as there are.

  /** The most connections there can be: one more than are lent out, or those the pool started with. */
  function Most(cfg: Config, staff: nat): nat {
    if cfg.maxSize > 0 && cfg.initSize <= staff then staff + 1 else cfg.initSize
  }

  /** What keeps the number down. */
  ghost predicate Roomy<C>(cfg: Config, staff: nat, p: Pool<C>) {
    |p.open| <= Most(cfg, staff) && (cfg.initSize > staff ==> |p.open| >= cfg.initSize)
  }

  lemma StepRoomy<C>(cfg: Config, staff: nat, p: Pool<C>, step: Step<C>)
    requires Inv(p) && Enabled(p, step) && |p.held| <= staff && Roomy(cfg, staff, p)
    ensures Roomy(cfg, staff, Do(cfg, p, step))
  {
    match step
    case ProducerRuns(c) =>
      ProduceSound(cfg, p, c);
    case ScannerRuns =>
      ScanSound(cfg, p);
      var q := Scan(cfg, p);
      SubsetSize(q.open, p.open);
      OpenCount(q);
    case _ =>
  }

  lemma {:induction false} RunRoomy<C>(cfg: Config, staff: nat, p: Pool<C>, steps: seq<Step<C>>, q: Pool<C>)
    requires Inv(p) && Roomy(cfg, staff, p) && ReachesWith(cfg, staff, p, steps, q)
    ensures Roomy(cfg, staff, q)
    decreases |steps|
  {
    if steps != [] {
      StepSound(cfg, p, steps[0]);
      StepRoomy(cfg, staff, p, steps[0]);
      RunRoomy(cfg, staff, Do(cfg, p, steps[0]), steps[1..], q);
    }
  }

  /** When everybody has one the producer sees to it that there is another. */
  lemma ProduceOneMore(cfg: Config, staff: nat, p: Pool<int>, unused: int) returns (steps: seq<Step<int>>)
    requires cfg.maxSize > 0 && Inv(p) && unused !in p.open && |p.held| == staff
    ensures ReachesWith(cfg, staff, p, steps, Produce(cfg, p, unused))
    ensures |Produce(cfg, p, unused).open| >= staff + 1
  {
    var q := Produce(cfg, p, unused);
    steps := [ProducerRuns(unused)];
    ProduceSound(cfg, p, unused);
    OpenCount(q);
    hide Inv;
    assert steps[1..] == [];
    assert Enabled(p, steps[0]) && Do(cfg, p, steps[0]) == q;
  }

  /** Some run opens that many. */
  lemma MostReached(cfg: Config, staff: nat, now: int) returns (steps: seq<Step<int>>, q: Pool<int>)
    ensures ReachesWith(cfg, staff, Start(Addresses(cfg.initSize), now), steps, q)
    ensures |q.open| >= Most(cfg, staff)
  {
    hide Inv, Produce, OpenAll;
    var p, n := Start(Addresses(cfg.initSize), now), cfg.initSize;
    StartSound(Addresses(n), now);
    if cfg.maxSize > 0 && n <= staff {
      hide ReachesWith;
      var first, busy := BorrowMany(cfg, p, staff, n, staff);
      var last := ProduceOneMore(cfg, staff, busy, n + staff);
      q := Produce(cfg, busy, n + staff);
      WithThen(cfg, staff, p, first, busy, last, q);
      steps := first + last;
    } else {
      steps, q := [], p;
    }
  }

  /** What the comment at the producer's guard says: no more than maxSize connections are open. */
  ghost predicate Limited(cfg: Config, staff: nat, now: int) {
    forall steps, q {:trigger ReachesWith(cfg, staff, Start(Addresses(cfg.initSize), now), steps, q)} |
      ReachesWith(cfg, staff, Start(Addresses(cfg.initSize), now), steps, q) :: |q.open| <= cfg.maxSize
  }

  /**
   With at most staff borrowers maxSize limits the open connections exactly if the pool does not start
   with more, and, unless it starts with more than can be lent out, one more than those is allowed.
   */
  lemma LimitExact(cfg: Config, staff: nat, now: int)
    ensures Limited(cfg, staff, now) <==>
      cfg.initSize <= cfg.maxSize && (cfg.maxSize > 0 && cfg.initSize <= staff ==> staff + 1 <= cfg.maxSize)
  {
    var p := Start(Addresses(cfg.initSize), now);
    StartSound(Addresses(cfg.initSize), now);
    if Most(cfg, staff) <= cfg.maxSize {
      forall steps, q | ReachesWith(cfg, staff, p, steps, q) ensures |q.open| <= cfg.maxSize {
        RunRoomy(cfg, staff, p, steps, q);
      }
    } else {
      var steps, q := MostReached(cfg, staff, now);
    }
  }

  /**
   With any number of borrowers nothing limits the open connections, whatever maxSize is, unless it
   is not positive; then there are never more than at the start.
   */
  lemma OpenBoundedExact(cfg: Config, now: int)
    ensures var p := Start(Addresses(cfg.initSize), now);
      (exists bound: nat :: Bounded(cfg, p, bound)) <==> cfg.maxSize <= 0
  {
    var n := cfg.initSize;
    var p := Start(Addresses(n), now);
    StartSound(Addresses(n), now);
    if cfg.maxSize <= 0 {
      forall steps, q | Reaches(cfg, p, steps, q) ensures |q.open| <= n {
        NoGrowth(cfg, p, steps, q);
        SubsetSize(q.open, p.open);
      }
      assert Bounded(cfg, p, n);
    } else {
      forall bound: nat ensures !Bounded(cfg, p, bound) {
        var steps, q := BorrowMany(cfg, p, bound + 1, n, bound + 1);
        WithReaches(cfg, bound + 1, p, steps, q);
        OpenCount(q);
      }
    }
  }
}

/** The pool itself: connections are objects, and the queue, the counter and each time are overwritten. */
module ConnectionPools {
  import opened Options
  import opened ConnectionSpec

  class Connection {
    var aliveTime: int

    constructor (now: int)
      ensures aliveTime == now
    {
      aliveTime := now;
    }

    method RefreshAliveTime(now: int)
      modifies this
      ensures aliveTime == now
    {
      aliveTime := now;
    }

    function GetAliveTime(now: int): int
      reads this
    {
      now - aliveTime
    }
  }

  class ConnectionPool {
    const config: Config
    var connectionQueue: seq<Connection>
    var connectionCnt: int
    ghost var held: set<Connection>
    ghost var open: set<Connection>
    ghost var clock: int

    ghost function Entries(): (r: seq<Idle<Connection>>)
      reads this, connectionQueue
      ensures |r| == |connectionQueue|
    {
      seq(|connectionQueue|, i requires 0 <= i < |connectionQueue| reads this, connectionQueue =>
        Idle(connectionQueue[i], connectionQueue[i].aliveTime))
    }

    ghost function State(): Pool<Connection>
      reads this, connectionQueue
    {
      Pool(Entries(), connectionCnt, held, open, clock)
    }

    ghost predicate Valid()
      reads this, connectionQueue
    {
      Inv(State())
    }

    constructor (config: Config, now: int)
      ensures Valid() && this.config == config && fresh(open)
      ensures |connectionQueue| == config.initSize && State() == Start(connectionQueue, now)
    {
      this.config := config;
      connectionQueue, connectionCnt := [], 0;
      held, open, clock := {}, {}, now;
      new;
      for i := 0 to config.initSize
        invariant Valid() && fresh(open) && fresh(this)
        invariant |connectionQueue| == i && clock == now && State() == Start(connectionQueue, now)
          && this.config == config
      {
        ghost var before := connectionQueue;
        AddNew(now);
        assert connectionQueue[..i] == before;
      }
    }

    /** new Connection, refreshed and pushed: the loop body of the constructor, and the producer's. */
    method AddNew(now: int)
      requires Valid() && clock == now
      modifies this
      ensures Valid() && |connectionQueue| > 0
      ensures connectionQueue[..|connectionQueue| - 1] == old(connectionQueue)
      ensures fresh(connectionQueue[|connectionQueue| - 1])
      ensures State() == Open(old(State()), connectionQueue[|connectionQueue| - 1])
    {
      var p := new Connection(now);
      ghost var before := State();
      OpenSound(before, p);
      connectionQueue := connectionQueue + [p];
      connectionCnt := connectionCnt + 1;
      open := open + {p};
      assert State().idle == Open(before, p).idle;
    }

    /** The clock is read; it does not go back. */
    ghost method ReadClock(now: int)
      requires Valid() && clock <= now
      modifies this`clock
      ensures Valid() && State() == At(old(State()), now)
    {
      ghost var before := State();
      ClockSound(before, now);
      clock := now;
      assert State().idle == before.idle;
    }

    /** null where getConnection waits for a connection, or gives up after waiting. */
    method GetConnection() returns (sp: Connection?)
      requires Valid()
      modifies this
      ensures Valid()
      ensures sp == null <==> old(connectionQueue) == []
      ensures sp != null ==>
        && old(connectionQueue) == [sp] + connectionQueue && sp !in old(held) && held == old(held) + {sp}
        && forall c | c in connectionQueue :: sp.aliveTime <= c.aliveTime
      ensures Get(old(State())).0 == if sp == null then None else Some(sp)
      ensures State() == Get(old(State())).1
    {
      ghost var before := State();
      GetSound(before);
      if connectionQueue == [] {
        return null;
      }
      sp := connectionQueue[0];
      connectionQueue := connectionQueue[1..];
      connectionCnt := connectionCnt - 1;
      held := held + {sp};
      assert State().idle == Get(before).1.idle;
      forall c | c in connectionQueue ensures sp.aliveTime <= c.aliveTime {
        var i :| 0 <= i < |connectionQueue| && connectionQueue[i] == c;
        assert before.idle[i + 1] == Idle(c, c.aliveTime) && before.idle[0].alive == sp.aliveTime;
      }
    }

    /** The deleter of the shared pointer: the borrower's connection goes back, as of now. */
    method GiveBack(pconn: Connection, now: int)
      requires Valid() && pconn in held && clock <= now
      modifies this, pconn
      ensures Valid() && State() == Return(At(old(State()), now), pconn)
      ensures connectionQueue == old(connectionQueue) + [pconn] && pconn.aliveTime == now
    {
      ReadClock(now);
      ghost var before := State();
      ReturnSound(before, pconn);
      assert forall i | 0 <= i < |connectionQueue| :: before.idle[i].conn == connectionQueue[i];
      pconn.RefreshAliveTime(now);
      connectionQueue := connectionQueue + [pconn];
      connectionCnt := connectionCnt + 1;
      held := held - {pconn};
      assert State().idle == Return(before, pconn).idle;
    }

    /** One pass of produceConnectionTask with the lock held; p is the connection made, if one was. */
    method ProduceConnection(now: int) returns (p: Connection?)
      requires Valid() && clock <= now
      modifies this
      ensures Valid() && (p != null <==> old(connectionQueue) == [] && config.maxSize > 0)
      ensures p == null ==> State() == At(old(State()), now)
      ensures p != null ==> fresh(p) && connectionQueue == [p] && State() == Produce(config, At(old(State()), now), p)
    {
      ReadClock(now);
      if connectionQueue == [] && connectionCnt < config.maxSize {
        AddNew(now);
        p := connectionQueue[|connectionQueue| - 1];
      } else {
        p := null;
      }
    }

    /** One pass of scannerConnectionTask after its sleep. */
    method ScanConnections(now: int)
      requires Valid() && clock <= now
      modifies this
      ensures Valid() && State() == Scan(config, At(old(State()), now))
    {
      ReadClock(now);
      ghost var result := Scan(config, State());
      while connectionCnt > config.initSize
        invariant Valid() && clock == now && Scan(config, State()) == result
        decreases connectionCnt
      {
        ghost var before := State();
        var p := connectionQueue[0];
        assert before.idle[0] == Idle(p, p.aliveTime);
        if p.GetAliveTime(now) >= config.maxIdleTime * 1000 {
          CloseSound(before);
          connectionQueue := connectionQueue[1..];
          connectionCnt := connectionCnt - 1;
          open := open - {p};
          assert State().idle == Close(before).idle;
        } else {
          break;
        }
      }
    }
  }
}
