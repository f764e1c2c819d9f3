/**
 The table of service servers, kept in a file as two lists: those that are up and those that are
 down. Operations load both lists, rebuild them, and store them again.
 */
module Registry {
  import opened Options
  import opened Sequences

  datatype Endpoint = Endpoint(ip: string, port: int)

  /** The stored table; a file that does not parse loads as two empty lists. */
  datatype Table = Garbled | Lists(up: seq<Endpoint>, down: seq<Endpoint>)

  function Up(t: Table): seq<Endpoint> {
    if t.Lists? then t.up else []
  }

  function Down(t: Table): seq<Endpoint> {
    if t.Lists? then t.down else []
  }

  /** No server is listed twice. */
  predicate Valid(t: Table) {
    Distinct(Up(t)) && Distinct(Down(t)) && forall e | e in Up(t) :: e !in Down(t)
  }

  datatype Status = IsUp | IsDown

  /** What the table says: the registered servers, each with its status. */
  function StatusOf(t: Table): (m: map<Endpoint, Status>)
    ensures forall e :: e in m <==> e in Up(t) || e in Down(t)
    ensures forall e | e in m :: m[e] == if e in Up(t) then IsUp else IsDown
  {
    map e | e in Up(t) + Down(t) :: if e in Up(t) then IsUp else IsDown
  }

  datatype Op = Login(e: Endpoint) | Logout(e: Endpoint) | SetUp(e: Endpoint) | SetDown(e: Endpoint)

  function Without(s: seq<Endpoint>, e: Endpoint): seq<Endpoint> {
    if s == [] then [] else
      var last := |s| - 1;
      if s[last] == e then Without(s[..last], e) else Without(s[..last], e) + [s[last]]
  }

  /** The lists an operation stores, or None where it is refused. */
  function Apply(t: Table, op: Op): Option<Table> {
    var up, down := Up(t), Down(t);
    match op
    case Login(e) => if e in up || e in down then None else Some(Lists(up + [e], down))
    case Logout(e) => if e in up || e in down then Some(Lists(Without(up, e), Without(down, e))) else None
    case SetUp(e) => if e in down then Some(Lists(up + [e], Without(down, e))) else None
    case SetDown(e) => if e in up then Some(Lists(Without(up, e), down + [e])) else None
  }

  /** The same on a map from server to status. */
  function MapApply(m: map<Endpoint, Status>, op: Op): Option<map<Endpoint, Status>> {
    match op
    case Login(e) => if e in m then None else Some(m[e := IsUp])
    case Logout(e) => if e in m then Some(m - {e}) else None
    case SetUp(e) => if e in m && m[e].IsDown? then Some(m[e := IsUp]) else None
    case SetDown(e) => if e in m && m[e].IsUp? then Some(m[e := IsDown]) else None
  }

  lemma {:induction false} WithoutMembers(s: seq<Endpoint>, e: Endpoint, d: Endpoint)
    ensures d in Without(s, e) <==> d in s && d != e
    decreases |s|
  {
    if s != [] {
      var last := |s| - 1;
      WithoutMembers(s[..last], e, d);
      assert s == s[..last] + [s[last]];
    }
  }

  lemma DistinctAppend(s: seq<Endpoint>, e: Endpoint)
    ensures Distinct(s + [e]) <==> Distinct(s) && e !in s
  {
    var r := s + [e];
    if Distinct(r) {
      forall i, j | 0 <= i < j < |s| ensures s[i] != s[j] {
        assert r[i] == s[i] && r[j] == s[j];
      }
      forall i | 0 <= i < |s| ensures s[i] != e {
        assert r[i] != r[|s|];
      }
    }
  }

  lemma {:induction false} WithoutDistinct(s: seq<Endpoint>, e: Endpoint)
    requires Distinct(s)
    ensures Distinct(Without(s, e))
    decreases |s|
  {
    if s != [] {
      var last := |s| - 1;
      assert s == s[..last] + [s[last]];
      DistinctAppend(s[..last], s[last]);
      WithoutDistinct(s[..last], e);
      WithoutMembers(s[..last], e, s[last]);
      DistinctAppend(Without(s[..last], e), s[last]);
    }
  }

  /** r is s with e taken out where it stood, and the others left in order. */
  ghost predicate TakenOut(s: seq<Endpoint>, r: seq<Endpoint>, e: Endpoint) {
    if e in s then exists i :: 0 <= i < |s| && s[i] == e && r == s[..i] + s[i + 1..] else r == s
  }

  lemma {:induction false} WithoutOrder(s: seq<Endpoint>, e: Endpoint) returns (i: nat)
    requires Distinct(s)
    ensures if e in s then i < |s| && s[i] == e && Without(s, e) == s[..i] + s[i + 1..] else Without(s, e) == s
    decreases |s|
  {
    hide Distinct;
    i := 0;
    if s != [] {
      var last := |s| - 1;
      var init := s[..last];
      assert s == init + [s[last]];
      DistinctAppend(init, s[last]);
      i := WithoutOrder(init, e);
      if s[last] == e {
        i := last;
      } else if e in init {
        TakenBefore(init, i, s[last]);
      }
    }
  }

  lemma TakenBefore(init: seq<Endpoint>, i: nat, d: Endpoint)
    requires i < |init|
    ensures (init + [d])[..i] + (init + [d])[i + 1..] == init[..i] + init[i + 1..] + [d]
  {
  }

  /**
   Where an operation leaves each server in the lists: its own at the end of the list it joins and
   gone from the other, the others in the order in which they were.
   */
  lemma ApplyOrder(t: Table, op: Op)
    requires Valid(t) && Apply(t, op).Some?
    ensures var u, e := Apply(t, op).value, op.e;
      match op
      case Login(_) => Up(u) == Up(t) + [e] && Down(u) == Down(t)
      case Logout(_) => TakenOut(Up(t), Up(u), e) && TakenOut(Down(t), Down(u), e)
      case SetUp(_) => Up(u) == Up(t) + [e] && TakenOut(Down(t), Down(u), e)
      case SetDown(_) => TakenOut(Up(t), Up(u), e) && Down(u) == Down(t) + [e]
  {
    var i := WithoutOrder(Up(t), op.e);
    var j := WithoutOrder(Down(t), op.e);
  }

  lemma ApplyValid(t: Table, op: Op)
    requires Valid(t) && Apply(t, op).Some?
    ensures Valid(Apply(t, op).value)
  {
    var e, u := op.e, Apply(t, op).value;
    WithoutDistinct(Up(t), e);
    WithoutDistinct(Down(t), e);
    DistinctAppend(Up(t), e);
    DistinctAppend(Down(t), e);
    forall d | d in u.up ensures d !in u.down {
      WithoutMembers(Up(t), e, d);
      WithoutMembers(Down(t), e, d);
    }
  }

  lemma ApplyRefused(t: Table, op: Op)
    requires Valid(t)
    ensures Apply(t, op).Some? <==> MapApply(StatusOf(t), op).Some?
  {
    var m := StatusOf(t);
    assert op.e in m <==> op.e in Up(t) || op.e in Down(t);
    assert op.e in m ==> (m[op.e] == if op.e in Up(t) then IsUp else IsDown);
  }

  /** An operation is refused exactly when it is on the map, and otherwise does to the map what it should. */
  lemma ApplyRefines(t: Table, op: Op)
    requires Valid(t)
    ensures Apply(t, op).Some? <==> MapApply(StatusOf(t), op).Some?
    ensures Apply(t, op).Some? ==>
      && Valid(Apply(t, op).value)
      && StatusOf(Apply(t, op).value) == MapApply(StatusOf(t), op).value
  {
    hide Apply, MapApply, StatusOf, Valid;
    ApplyRefused(t, op);
    if Apply(t, op).Some? {
      ApplyValid(t, op);
      var got, want := StatusOf(Apply(t, op).value), MapApply(StatusOf(t), op).value;
      forall d ensures (d in got <==> d in want) && (d in got ==> got[d] == want[d]) {
        ApplyAt(t, op, d);
      }
      assert got == want;
    }
  }

  lemma ApplyAt(t: Table, op: Op, d: Endpoint)
    requires Valid(t) && Apply(t, op).Some? && MapApply(StatusOf(t), op).Some?
    ensures var got, want := StatusOf(Apply(t, op).value), MapApply(StatusOf(t), op).value;
      (d in got <==> d in want) && (d in got ==> got[d] == want[d])
  {
    WithoutMembers(Up(t), op.e, d);
    WithoutMembers(Down(t), op.e, d);
    assert d in Up(t) + [op.e] <==> d in Up(t) || d == op.e;
    assert d in Down(t) + [op.e] <==> d in Down(t) || d == op.e;
  }

  // ----- runs

  /** A call, and whether the file can be opened for reading and for writing while it is made. */
  datatype Call = Call(op: Op, loadOk: bool, storeOk: bool)

  predicate Succeeds(t: Table, call: Call) {
    call.loadOk && call.storeOk && Apply(t, call.op).Some?
  }

  function After(t: Table, call: Call): Table {
    if Succeeds(t, call) then Apply(t, call.op).value else t
  }

  function Run(t: Table, calls: seq<Call>): Table
    decreases |calls|
  {
    if calls == [] then t else Run(After(t, calls[0]), calls[1..])
  }

  function MapRun(m: map<Endpoint, Status>, calls: seq<Call>): map<Endpoint, Status>
    decreases |calls|
  {
    if calls == [] then m else
      var next := if calls[0].loadOk && calls[0].storeOk then MapApply(m, calls[0].op) else None;
      MapRun(if next.Some? then next.value else m, calls[1..])
  }

  /** Every sequence of calls keeps the lists free of repeats, and acts as it would on a map. */
  lemma {:induction false} RunRefines(t: Table, calls: seq<Call>)
    requires Valid(t)
    ensures Valid(Run(t, calls))
    ensures StatusOf(Run(t, calls)) == MapRun(StatusOf(t), calls)
    decreases |calls|
  {
    if calls != [] {
      ApplyRefines(t, calls[0].op);
      RunRefines(After(t, calls[0]), calls[1..]);
    }
  }

  /** How many of the calls are logins that succeed. */
  function Logins(t: Table, calls: seq<Call>): nat
    decreases |calls|
  {
    if calls == [] then 0 else
      (if calls[0].op.Login? && Succeeds(t, calls[0]) then 1 else 0) + Logins(After(t, calls[0]), calls[1..])
  }

  function Logouts(t: Table, calls: seq<Call>): nat
    decreases |calls|
  {
    if calls == [] then 0 else
      (if calls[0].op.Logout? && Succeeds(t, calls[0]) then 1 else 0) + Logouts(After(t, calls[0]), calls[1..])
  }

  /** Marking a server up or down conserves the servers; a login adds one and a logout removes one. */
  lemma StepKeys(t: Table, call: Call)
    requires Valid(t) && Succeeds(t, call)
    ensures var before, after := StatusOf(t).Keys, StatusOf(After(t, call)).Keys;
      match call.op
      case Login(e) => e !in before && after == before + {e}
      case Logout(e) => e in before && after == before - {e}
      case _ => after == before
  {
    ApplyRefines(t, call.op);
  }

  lemma ListsCount(t: Table)
    requires Valid(t)
    ensures |Up(t)| + |Down(t)| == |StatusOf(t)|
  {
    var all := Up(t) + Down(t);
    assert Distinct(all) by {
      forall i, j | 0 <= i < j < |all| ensures all[i] != all[j] {
        if i < |Up(t)| && j >= |Up(t)| {
          assert all[i] in Up(t) && all[j] in Down(t);
        }
      }
    }
    DistinctCount(all);
    assert StatusOf(t).Keys == Elements(all);
  }

  function Elements(s: seq<Endpoint>): set<Endpoint> {
    set e | e in s
  }

  lemma {:induction false} DistinctCount(s: seq<Endpoint>)
    requires Distinct(s)
    ensures |Elements(s)| == |s|
    decreases |s|
  {
    if s != [] {
      var last := |s| - 1;
      DistinctCount(s[..last]);
      assert s[last] !in s[..last];
      assert s == s[..last] + [s[last]];
      assert Elements(s) == Elements(s[..last]) + {s[last]};
    }
  }

  /** The lists together grow by one for each login that succeeds and shrink by one for each logout. */
  lemma {:induction false} RunCount(t: Table, calls: seq<Call>)
    requires Valid(t)
    ensures Valid(Run(t, calls))
    ensures |Up(Run(t, calls))| + |Down(Run(t, calls))| == |Up(t)| + |Down(t)| + Logins(t, calls) - Logouts(t, calls)
    decreases |calls|
  {
    if calls != [] {
      var call := calls[0];
      var u := After(t, call);
      ApplyRefines(t, call.op);
      ListsCount(t);
      ListsCount(u);
      if Succeeds(t, call) {
        StepKeys(t, call);
      }
      RunCount(u, calls[1..]);
    }
  }

  /** One of the calls is a login that can open the file. */
  ghost predicate HasLogin(calls: seq<Call>) {
    exists i {:trigger calls[i]} :: 0 <= i < |calls| && calls[i].op.Login? && calls[i].loadOk && calls[i].storeOk
  }

  /**
   A table that does not parse is forgotten: calls leave it alone until a login overwrites it, and
   what comes out is what they would make of an empty table.
   */
  lemma {:induction false} GarbledForgets(calls: seq<Call>)
    ensures Run(Garbled, calls) == if HasLogin(calls) then Run(Lists([], []), calls) else Garbled
    decreases |calls|
  {
    if calls != [] {
      var rest := calls[1..];
      GarbledForgets(rest);
      if calls[0].op.Login? && calls[0].loadOk && calls[0].storeOk {
        assert HasLogin(calls);
      } else {
        if i :| 0 <= i < |calls| && calls[i].op.Login? && calls[i].loadOk && calls[i].storeOk {
          assert rest[i - 1] == calls[i];
        }
        if j :| 0 <= j < |rest| && rest[j].op.Login? && rest[j].loadOk && rest[j].storeOk {
          assert calls[j + 1] == rest[j];
        }
      }
    }
  }

  // ----- two callers at once

  /** What is sent down every worker's pipe after a mark: 2 for up, 3 for down, and the server. */
  datatype Notice = Notice(message: int, server: Endpoint)

  /** What two calls leave: the table, which of them returned 0, and the notices every worker got. */
  datatype Outcome = Outcome(table: Table, first: bool, second: bool, notices: multiset<Notice>)

  function Sent(op: Op, ok: bool): multiset<Notice> {
    match op
    case SetUp(e) => if ok then multiset{Notice(2, e)} else multiset{}
    case SetDown(e) => if ok then multiset{Notice(3, e)} else multiset{}
    case _ => multiset{}
  }

  function Both(t: Table, first: Op, ok1: bool, second: Op, ok2: bool): Outcome {
    Outcome(t, ok1, ok2, Sent(first, ok1) + Sent(second, ok2))
  }

  /** Both load the table before either stores it; first stores before second. */
  function Overlapped(t: Table, first: Call, second: Call): Outcome {
    var ok1, ok2 := Succeeds(t, first), Succeeds(t, second);
    Both(if ok2 then Apply(t, second.op).value else After(t, first), first.op, ok1, second.op, ok2)
  }

  function FirstThenSecond(t: Table, first: Call, second: Call): Outcome {
    var t1 := After(t, first);
    Both(After(t1, second), first.op, Succeeds(t, first), second.op, Succeeds(t1, second))
  }

  function SecondThenFirst(t: Table, first: Call, second: Call): Outcome {
    var t1 := After(t, second);
    Both(After(t1, first), first.op, Succeeds(t1, first), second.op, Succeeds(t, second))
  }

  /** The same servers with the same status, the same returns, the same notices. */
  predicate Alike(o: Outcome, p: Outcome) {
    && StatusOf(o.table) == StatusOf(p.table)
    && o.first == p.first && o.second == p.second && o.notices == p.notices
  }

  predicate MarkThenLogout(first: Op, second: Op) {
    first.e == second.e && (first.SetUp? || first.SetDown?) && second.Logout?
  }

  /**
   Without a lock around load and store, two calls that overlap have the outcome they would have in
   one order or the other exactly when one of them fails, or when a mark overlaps a logout of the
   same server that stores after it.
   */
  lemma OverlapExact(t: Table, first: Call, second: Call)
    requires Valid(t)
    ensures
      var got := Overlapped(t, first, second);
      (Alike(got, FirstThenSecond(t, first, second)) || Alike(got, SecondThenFirst(t, first, second)))
      <==>
      (!Succeeds(t, first) || !Succeeds(t, second) || MarkThenLogout(first.op, second.op))
  {
    if Succeeds(t, first) && Succeeds(t, second) {
      hide Apply, MapApply, StatusOf, Valid, MarkThenLogout;
      var m := StatusOf(t);
      ApplyRefines(t, first.op);
      ApplyRefines(t, second.op);
      ApplyRefines(After(t, first), second.op);
      ApplyRefines(After(t, second), first.op);
      OverlapOnMap(m, first.op, second.op);
    }
  }

  lemma OverlapOnMap(m: map<Endpoint, Status>, first: Op, second: Op)
    requires MapApply(m, first).Some? && MapApply(m, second).Some?
    ensures var a, b := MapApply(m, first).value, MapApply(m, second).value;
      && (MapApply(a, second) == Some(b) <==> MarkThenLogout(first, second))
      && MapApply(b, first) != Some(b)
  {
    var a, b := MapApply(m, first).value, MapApply(m, second).value;
    StatusChanges(m, first);
    StatusChanges(m, second);
    if MapApply(b, first).Some? {
      StatusChanges(b, first);
    }
    if first.e != second.e {
      StatusChanges(a, second);
    } else if MarkThenLogout(first, second) {
      assert a - {first.e} == m - {first.e};
    }
  }

  /**
   The two threads that look for crashed servers may both find the same one: each call of
   SetServerDown then returns 0 and every worker is told twice, which happens in neither order.
   */
  lemma CrashSeenTwice(t: Table, e: Endpoint)
    requires Valid(t) && e in Up(t)
    ensures var mark := Call(SetDown(e), true, true);
      var got := Overlapped(t, mark, mark);
      && got.first && got.second && got.notices[Notice(3, e)] == 2
      && !FirstThenSecond(t, mark, mark).second && FirstThenSecond(t, mark, mark).notices[Notice(3, e)] == 1
      && !SecondThenFirst(t, mark, mark).first && SecondThenFirst(t, mark, mark).notices[Notice(3, e)] == 1
  {
    WithoutMembers(Up(t), e, e);
  }

  /** An operation that is not refused changes its own server's entry and no other. */
  lemma StatusChanges(m: map<Endpoint, Status>, op: Op)
    requires MapApply(m, op).Some?
    ensures var r := MapApply(m, op).value;
      && ((op.e in r) != (op.e in m) || (op.e in r && r[op.e] != m[op.e]))
      && forall d | d != op.e :: (d in r <==> d in m) && (d in m ==> r[d] == m[d])
  {
  }

  // ----- a call that loads while another stores

  /**
   UpdateServerList truncates the file when it opens it.  first has done so and not yet written;
   second loads in between, and finds nothing that parses.
   */
  function Interrupted(t: Table, first: Call, second: Call): Outcome {
    var ok2 := Succeeds(Garbled, second);
    Both(if ok2 then Apply(Garbled, second.op).value else After(t, first), first.op, true, second.op, ok2)
  }

  predicate LogsIn(call: Call) {
    call.op.Login? && call.loadOk && call.storeOk
  }

  /** The interrupted pair does no harm: a login wipes nothing, and any other call fails anyway. */
  predicate InterruptionHarmless(t: Table, first: Call, second: Call) {
    if LogsIn(second) then Up(After(t, first)) == [] && Down(After(t, first)) == []
    else !Succeeds(t, second) || !Succeeds(After(t, first), second)
  }

  /**
   A load in the middle of a store has the outcome of some order exactly if it belongs to a login
   and no server is registered then, or to another call that fails in one of the orders.
   */
  lemma InterruptedExact(t: Table, first: Call, second: Call)
    requires Valid(t) && Succeeds(t, first)
    ensures
      var got := Interrupted(t, first, second);
      (Alike(got, FirstThenSecond(t, first, second)) || Alike(got, SecondThenFirst(t, first, second)))
      <==> InterruptionHarmless(t, first, second)
  {
    hide Apply, StatusOf, Valid, Sent;
    if LogsIn(second) {
      LoginWipes(t, first, second);
    } else {
      NothingGarbled(second);
    }
  }

  lemma NothingGarbled(call: Call)
    ensures Succeeds(Garbled, call) <==> LogsIn(call)
  {
  }

  /** The login stores its own server alone. */
  lemma LoginWipes(t: Table, first: Call, second: Call)
    requires Valid(t) && Succeeds(t, first) && LogsIn(second)
    ensures
      var got := Interrupted(t, first, second);
      (Alike(got, FirstThenSecond(t, first, second)) || Alike(got, SecondThenFirst(t, first, second)))
      <==> Up(After(t, first)) == [] && Down(After(t, first)) == []
  {
    NoServers(After(t, first));
    ApplyRefines(t, first.op);
    WipedFirst(t, first, second);
    WipedSecond(t, first, second);
    hide Interrupted, FirstThenSecond, SecondThenFirst, Alike, Valid, StatusOf, Apply, MapApply;
    LoginAlone(StatusOf(t), first.op, second.op.e);
  }

  lemma WipedTable(t: Table, first: Call, second: Call)
    requires LogsIn(second)
    ensures StatusOf(Lists([second.op.e], [])) == map[second.op.e := IsUp]
    ensures Interrupted(t, first, second) == Both(Lists([second.op.e], []), first.op, true, second.op, true)
  {
    OneServer(second.op.e);
    assert Up(Garbled) + [second.op.e] == [second.op.e];
    assert Apply(Garbled, second.op) == Some(Lists([second.op.e], []));
    hide Apply, StatusOf, Sent;
  }

  lemma OneServer(e: Endpoint)
    ensures StatusOf(Lists([e], [])) == map[e := IsUp]
  {
    var m := StatusOf(Lists([e], []));
    assert forall d :: d in m <==> d == e;
  }

  lemma WipedFirst(t: Table, first: Call, second: Call)
    requires Valid(t) && Succeeds(t, first) && LogsIn(second)
    ensures Alike(Interrupted(t, first, second), FirstThenSecond(t, first, second)) <==>
      MapApply(StatusOf(After(t, first)), Login(second.op.e)) == Some(map[second.op.e := IsUp])
  {
    WipedTable(t, first, second);
    ApplyRefines(t, first.op);
    ApplyRefines(After(t, first), second.op);
    assert second.op == Login(second.op.e);
    hide Interrupted, Apply, MapApply, StatusOf, Valid, Sent;
  }

  lemma WipedSecond(t: Table, first: Call, second: Call)
    requires Valid(t) && Succeeds(t, first) && LogsIn(second)
    ensures Alike(Interrupted(t, first, second), SecondThenFirst(t, first, second)) <==>
      MapApply(StatusOf(t), Login(second.op.e)).Some?
      && MapApply(MapApply(StatusOf(t), Login(second.op.e)).value, first.op) == Some(map[second.op.e := IsUp])
  {
    WipedTable(t, first, second);
    ApplyRefines(t, second.op);
    ApplyRefines(After(t, second), first.op);
    assert second.op == Login(second.op.e);
    hide Interrupted, Apply, MapApply, StatusOf, Valid, Sent;
  }

  lemma NoServers(t: Table)
    ensures StatusOf(t) == map[] <==> Up(t) == [] && Down(t) == []
  {
    if Up(t) != [] {
      assert Up(t)[0] in StatusOf(t);
    }
    if Down(t) != [] {
      assert Down(t)[0] in StatusOf(t);
    }
  }

  lemma LoginAlone(m: map<Endpoint, Status>, first: Op, b: Endpoint)
    requires MapApply(m, first).Some?
    ensures var m1 := MapApply(m, first).value;
      var m2 := MapApply(m, Login(b));
      && (MapApply(m1, Login(b)) == Some(map[b := IsUp]) <==> m1 == map[])
      && (m2.Some? && MapApply(m2.value, first) == Some(map[b := IsUp]) ==> m1 == map[])
  {
    var m1 := MapApply(m, first).value;
    if b !in m1 && m1[b := IsUp] == map[b := IsUp] {
      forall d ensures d !in m1 {
        assert d in m1 ==> d in m1[b := IsUp];
      }
      assert m1 == map[];
    }
    if b !in m && MapApply(m[b := IsUp], first) == Some(map[b := IsUp]) {
      StatusChanges(m[b := IsUp], first);
      assert first.e != b;
      forall d ensures d in m <==> d == first.e {
        assert d != b ==> (d in m[b := IsUp] <==> d in m);
      }
      assert m1 == map[];
    }
  }

  /** A server that logs out while it is marked down is told that it is not there, and stays. */
  lemma LogoutMissed(t: Table, e: Endpoint)
    requires Valid(t) && e in Up(t)
    ensures var mark, logout := Call(SetDown(e), true, true), Call(Logout(e), true, true);
      var got := Interrupted(t, mark, logout);
      && got.first && !got.second && e in StatusOf(got.table)
      && FirstThenSecond(t, mark, logout).second && e !in StatusOf(FirstThenSecond(t, mark, logout).table)
      && SecondThenFirst(t, mark, logout).second && e !in StatusOf(SecondThenFirst(t, mark, logout).table)
  {
    var mark, logout := Call(SetDown(e), true, true), Call(Logout(e), true, true);
    assert e in StatusOf(t) && StatusOf(t)[e] == IsUp;
    NothingGarbled(logout);
    hide Apply, StatusOf, Valid, Sent;
    ApplyRefines(t, mark.op);
    ApplyRefines(t, logout.op);
    ApplyRefines(After(t, mark), logout.op);
    ApplyRefines(After(t, logout), mark.op);
  }

  /** A login that loads while a mark is stored leaves a table of its own server alone. */
  lemma OthersForgotten(t: Table, e: Endpoint, b: Endpoint)
    requires Valid(t) && e in Up(t)
    ensures Interrupted(t, Call(SetDown(e), true, true), Call(Login(b), true, true)).table == Lists([b], [])
  {
  }

  // ----- the server monitor

  class ServerMonitor {
    var table: Table
    var pipes: seq<seq<Notice>>

    constructor (table: Table, processNum: nat)
      ensures this.table == table && pipes == seq(processNum, _ => [])
    {
      this.table := table;
      pipes := seq(processNum, _ => []);
    }

    /** True if port and ip are found in the list. */
    method Find(list: seq<Endpoint>, e: Endpoint) returns (found: bool)
      ensures found <==> e in list
    {
      found := false;
      for i := 0 to |list|
        invariant !found && e !in list[..i]
      {
        if list[i].port == e.port && list[i].ip == e.ip {
          return true;
        }
      }
      assert list[..|list|] == list;
    }

    /** The list rebuilt by append, leaving the server out; whether it was there. */
    method Rebuild(list: seq<Endpoint>, e: Endpoint) returns (flag: bool, new_list: seq<Endpoint>)
      ensures flag <==> e in list
      ensures new_list == Without(list, e)
    {
      flag, new_list := false, [];
      for i := 0 to |list|
        invariant flag <==> e in list[..i]
        invariant new_list == Without(list[..i], e)
      {
        assert list[..i + 1][..i] == list[..i];
        if list[i].port == e.port && list[i].ip == e.ip {
          flag := true;
        } else {
          new_list := new_list + [list[i]];
        }
      }
      assert list[..|list|] == list;
    }

    method Notify(message: int, e: Endpoint)
      modifies this`pipes
      ensures |pipes| == |old(pipes)|
      ensures forall i | 0 <= i < |pipes| :: pipes[i] == old(pipes[i]) + [Notice(message, e)]
    {
      for i := 0 to |pipes|
        invariant |pipes| == |old(pipes)|
        invariant forall j | 0 <= j < i :: pipes[j] == old(pipes[j]) + [Notice(message, e)]
        invariant forall j | i <= j < |pipes| :: pipes[j] == old(pipes[j])
      {
        pipes := pipes[i := pipes[i] + [Notice(message, e)]];
      }
    }

    method LoginServer(e: Endpoint, loadOk: bool, storeOk: bool) returns (ret: int)
      modifies this`table
      ensures ret == if Succeeds(old(table), Call(Login(e), loadOk, storeOk)) then 0 else -1
      ensures table == After(old(table), Call(Login(e), loadOk, storeOk))
    {
      if !loadOk {
        return -1;
      }
      var server_up, server_down := Up(table), Down(table);
      var isUp := Find(server_up, e);
      var isDown := Find(server_down, e);
      if isUp || isDown {
        return -1;
      }
      server_up := server_up + [e];
      if !storeOk {
        return -1;
      }
      table := Lists(server_up, server_down);
      return 0;
    }

    method LogoutServer(e: Endpoint, loadOk: bool, storeOk: bool) returns (ret: int)
      modifies this`table
      ensures ret == if Succeeds(old(table), Call(Logout(e), loadOk, storeOk)) then 0 else -1
      ensures table == After(old(table), Call(Logout(e), loadOk, storeOk))
    {
      if !loadOk {
        return -1;
      }
      var wasUp, server_up_new := Rebuild(Up(table), e);
      var wasDown, server_down_new := Rebuild(Down(table), e);
      if !(wasUp || wasDown) || !storeOk {
        return -1;
      }
      table := Lists(server_up_new, server_down_new);
      return 0;
    }

    method SetServerUp(e: Endpoint, loadOk: bool, storeOk: bool) returns (ret: int)
      modifies this
      ensures ret == if Succeeds(old(table), Call(SetUp(e), loadOk, storeOk)) then 0 else -1
      ensures table == After(old(table), Call(SetUp(e), loadOk, storeOk))
      ensures ret != 0 ==> pipes == old(pipes)
      ensures |pipes| == |old(pipes)|
      ensures ret == 0 ==> forall i | 0 <= i < |pipes| :: pipes[i] == old(pipes[i]) + [Notice(2, e)]
    {
      if !loadOk {
        return -1;
      }
      var server_up := Up(table);
      var set_flag, server_down_new := Rebuild(Down(table), e);
      if !set_flag {
        return -1;
      }
      server_up := server_up + [e];
      if !storeOk {
        return -1;
      }
      table := Lists(server_up, server_down_new);
      Notify(2, e);
      return 0;
    }

    method SetServerDown(e: Endpoint, loadOk: bool, storeOk: bool) returns (ret: int)
      modifies this
      ensures ret == if Succeeds(old(table), Call(SetDown(e), loadOk, storeOk)) then 0 else -1
      ensures table == After(old(table), Call(SetDown(e), loadOk, storeOk))
      ensures ret != 0 ==> pipes == old(pipes)
      ensures |pipes| == |old(pipes)|
      ensures ret == 0 ==> forall i | 0 <= i < |pipes| :: pipes[i] == old(pipes[i]) + [Notice(3, e)]
    {
      if !loadOk {
        return -1;
      }
      var server_down := Down(table);
      var set_flag, server_up_new := Rebuild(Up(table), e);
      if !set_flag {
        return -1;
      }
      server_down := server_down + [e];
      if !storeOk {
        return -1;
      }
      table := Lists(server_up_new, server_down);
      Notify(3, e);
      return 0;
    }
  }
}
