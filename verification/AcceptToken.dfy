/**
 The accept hand-off between the parent and its workers: a flag in shared memory, a mutex, and one
 notification pipe per worker, with every process interleaved step by step.
 */
module AcceptToken {
  datatype Holder = Free | Parent | Worker(i: nat)

  /** Where the parent is in ListenerClientCallBack. */
  datatype ParentPc = Idle | Locked | Sent | Unlocking

  /** Where a worker is in pipe_event_CallBack, case 1. */
  datatype WorkerPc = Waiting | Received | Accepted | Holding | Releasing

  /** pipes[i] counts the notices sent to worker i and not yet received. */
  datatype Shared = Shared(flag: bool, mutex: Holder, parent: ParentPc, turn: nat, pipes: seq<nat>,
    workers: seq<WorkerPc>)

  /** init_shm, and n workers waiting. */
  function Start(n: nat): Shared {
    Shared(true, Free, Idle, 0, seq(n, _ => 0), seq(n, _ => Waiting))
  }

  /** The parent's next step; a client is waiting to be accepted whenever it is taken. */
  function ParentStep(s: Shared): Shared
    requires |s.pipes| > 0
  {
    match s.parent
    case Idle => if s.mutex.Free? then s.(mutex := Parent, parent := Locked) else s  // trylock
    case Locked =>
      if s.flag then
        var to := s.turn % |s.pipes|;
        s.(pipes := s.pipes[to := s.pipes[to] + 1], turn := to + 1, parent := Sent)
      else
        s.(parent := Unlocking)
    case Sent => s.(flag := false, parent := Unlocking)
    case Unlocking => s.(mutex := Free, parent := Idle)
  }

  /** The next step of worker i. */
  function WorkerStep(s: Shared, i: nat): Shared
    requires i < |s.workers| && |s.pipes| == |s.workers|
  {
    match s.workers[i]
    case Waiting =>
      if s.pipes[i] > 0 then s.(pipes := s.pipes[i := s.pipes[i] - 1], workers := s.workers[i := Received]) else s
    case Received => s.(workers := s.workers[i := Accepted])  // accept, successful or not
    case Accepted =>
      if s.mutex.Free? then s.(mutex := Worker(i), workers := s.workers[i := Holding]) else s
    case Holding => s.(flag := true, workers := s.workers[i := Releasing])
    case Releasing => s.(mutex := Free, workers := s.workers[i := Waiting])
  }

  datatype Turn = ParentMoves | WorkerMoves(i: nat)

  function Step(s: Shared, t: Turn): Shared
    requires |s.pipes| == |s.workers| > 0
  {
    match t
    case ParentMoves => ParentStep(s)
    case WorkerMoves(i) => if i < |s.workers| then WorkerStep(s, i) else s
  }

  function Run(s: Shared, turns: seq<Turn>): (r: Shared)
    requires |s.pipes| == |s.workers| > 0
    ensures |r.pipes| == |r.workers| == |s.workers|
    decreases |turns|
  {
    if turns == [] then s else Run(Step(s, turns[0]), turns[1..])
  }

  // ----- the token

  /** A worker that has taken a notice and not yet set the flag again. */
  predicate Accepting(w: WorkerPc) {
    w.Received? || w.Accepted? || w.Holding?
  }

  /** How many workers are accepting, and how many notices are under way. */
  function Takers(pipes: seq<nat>, workers: seq<WorkerPc>): nat
    requires |pipes| == |workers|
  {
    if pipes == [] then 0 else
      pipes[0] + (if Accepting(workers[0]) then 1 else 0) + Takers(pipes[1..], workers[1..])
  }

  /** The flag is the token, except while the parent has sent a notice and not yet cleared it. */
  function Tokens(s: Shared): nat
    requires |s.pipes| == |s.workers|
  {
    (if s.flag && !s.parent.Sent? then 1 else 0) + Takers(s.pipes, s.workers)
  }

  ghost predicate MutexOk(s: Shared, i: nat)
    requires i < |s.workers|
  {
    s.mutex == Worker(i) <==> s.workers[i].Holding? || s.workers[i].Releasing?
  }

  ghost predicate Inv(s: Shared) {
    && |s.pipes| == |s.workers| > 0
    && Tokens(s) == 1
    && (s.parent.Sent? ==> s.flag)
    && (s.mutex == Parent <==> !s.parent.Idle?)
    && (s.mutex.Worker? ==> s.mutex.i < |s.workers|)
    && (forall i {:trigger MutexOk(s, i)} | 0 <= i < |s.workers| :: MutexOk(s, i))
  }

  lemma {:induction false} TakersUpdate(pipes: seq<nat>, workers: seq<WorkerPc>, i: nat, n: nat, w: WorkerPc)
    requires |pipes| == |workers| && i < |pipes|
    ensures Takers(pipes[i := n], workers[i := w]) + pipes[i] + (if Accepting(workers[i]) then 1 else 0)
         == Takers(pipes, workers) + n + (if Accepting(w) then 1 else 0)
  {
    if i > 0 {
      assert pipes[i := n][1..] == pipes[1..][i - 1 := n];
      assert workers[i := w][1..] == workers[1..][i - 1 := w];
      TakersUpdate(pipes[1..], workers[1..], i - 1, n, w);
    } else {
      assert pipes[i := n][1..] == pipes[1..] && workers[i := w][1..] == workers[1..];
    }
  }

  /** One accepting worker, or one notice, is counted. */
  lemma TakersAtLeast(pipes: seq<nat>, workers: seq<WorkerPc>, i: nat)
    requires |pipes| == |workers| && i < |pipes|
    ensures Takers(pipes, workers) >= pipes[i] + (if Accepting(workers[i]) then 1 else 0)
  {
    TakersUpdate(pipes, workers, i, 0, Waiting);
  }

  lemma {:induction false} NoTakers(n: nat)
    ensures Takers(seq(n, _ => 0), seq(n, _ => Waiting)) == 0
  {
    if n > 0 {
      assert seq(n, _ => 0)[1..] == seq(n - 1, _ => 0);
      assert seq(n, _ => Waiting)[1..] == seq(n - 1, _ => Waiting);
      NoTakers(n - 1);
    }
  }

  lemma StartSound(n: nat)
    requires n > 0
    ensures Inv(Start(n))
  {
    NoTakers(n);
  }

  lemma ParentSound(s: Shared)
    requires Inv(s)
    ensures Inv(ParentStep(s))
  {
    var t := ParentStep(s);
    if s.parent.Locked? && s.flag {
      var to := s.turn % |s.pipes|;
      TakersUpdate(s.pipes, s.workers, to, s.pipes[to] + 1, s.workers[to]);
      assert s.workers[to := s.workers[to]] == s.workers;
    }
    forall i | 0 <= i < |t.workers| ensures MutexOk(t, i) {
      assert MutexOk(s, i);
    }
  }

  lemma WorkerSound(s: Shared, i: nat)
    requires Inv(s) && i < |s.workers|
    ensures Inv(WorkerStep(s, i))
  {
    var t := WorkerStep(s, i);
    assert MutexOk(s, i);
    TakersUpdate(s.pipes, s.workers, i, t.pipes[i], t.workers[i]);
    assert s.pipes[i := t.pipes[i]] == t.pipes && s.workers[i := t.workers[i]] == t.workers;
    TakersAtLeast(s.pipes, s.workers, i);
    forall j | 0 <= j < |t.workers| ensures MutexOk(t, j) {
      assert MutexOk(s, j);
    }
  }

  lemma {:induction false} RunSound(s: Shared, turns: seq<Turn>)
    requires Inv(s)
    ensures Inv(Run(s, turns))
    decreases |turns|
  {
    if turns != [] {
      match turns[0] {
        case ParentMoves => ParentSound(s);
        case WorkerMoves(i) =>
          if i < |s.workers| {
            WorkerSound(s, i);
          }
      }
      RunSound(Step(s, turns[0]), turns[1..]);
    }
  }

  /**
   In every interleaving there is exactly one token: the flag is set (and the parent is not between
   sending a notice and clearing the flag), or one notice is under way, or one worker is accepting.
   So the right to accept is never lost and never duplicated.
   */
  lemma TokenConserved(n: nat, turns: seq<Turn>)
    requires n > 0
    ensures Tokens(Run(Start(n), turns)) == 1
  {
    StartSound(n);
    RunSound(Start(n), turns);
  }

  /** At most one worker is accepting, and none is while another notice is under way. */
  lemma OneAccepts(n: nat, turns: seq<Turn>, i: nat, j: nat)
    requires n > 0 && i < n && j < n
    requires var s := Run(Start(n), turns); Accepting(s.workers[i]) && (Accepting(s.workers[j]) || s.pipes[j] > 0)
    ensures i == j && Run(Start(n), turns).pipes[i] == 0
  {
    TokenConserved(n, turns);
    var s := Run(Start(n), turns);
    TakersAtLeast(s.pipes, s.workers, i);
    if i != j {
      TakersUpdate(s.pipes, s.workers, i, 0, Waiting);
      TakersAtLeast(s.pipes[i := 0], s.workers[i := Waiting], j);
    }
  }

  /** Two processes are never in the critical section at once. */
  lemma MutualExclusion(n: nat, turns: seq<Turn>, i: nat, j: nat)
    requires n > 0 && i < n && j < n
    requires var s := Run(Start(n), turns);
      && (s.workers[i].Holding? || s.workers[i].Releasing?)
      && (s.workers[j].Holding? || s.workers[j].Releasing?)
    ensures i == j && Run(Start(n), turns).parent.Idle?
  {
    StartSound(n);
    RunSound(Start(n), turns);
    var s := Run(Start(n), turns);
    assert MutexOk(s, i) && MutexOk(s, j);
  }

  /** A worker sets the flag only while it is clear, so no set of it is ever lost. */
  lemma FlagClearWhileAccepting(n: nat, turns: seq<Turn>, i: nat)
    requires n > 0 && i < n && Run(Start(n), turns).workers[i].Holding?
    ensures !Run(Start(n), turns).flag
  {
    StartSound(n);
    RunSound(Start(n), turns);
    var s := Run(Start(n), turns);
    assert MutexOk(s, i);
    TakersAtLeast(s.pipes, s.workers, i);
  }

  // ----- the token comes back

  lemma {:induction false} RunConcat(s: Shared, a: seq<Turn>, b: seq<Turn>)
    requires |s.pipes| == |s.workers| > 0
    ensures Run(s, a + b) == Run(Run(s, a), b)
    decreases |a|
  {
    if a == [] {
      assert a + b == b;
    } else {
      assert (a + b)[1..] == a[1..] + b;
      RunConcat(Step(s, a[0]), a[1..], b);
    }
  }

  lemma RunOne(s: Shared, t: Turn)
    requires |s.pipes| == |s.workers| > 0
    ensures Run(s, [t]) == Step(s, t)
  {
    assert [t][1..] == [];
  }

  /** How far the process in the critical section is from leaving it. */
  function Distance(s: Shared): nat {
    match s.mutex
    case Free => 0
    case Parent => (match s.parent case Idle => 0 case Locked => 3 case Sent => 2 case Unlocking => 1)
    case Worker(i) => if i < |s.workers| && s.workers[i].Holding? then 2 else 1
  }

  /** Whoever is in the critical section can leave it without help. */
  lemma {:induction false} MutexFrees(s: Shared) returns (turns: seq<Turn>)
    requires Inv(s)
    ensures Inv(Run(s, turns)) && Run(s, turns).mutex.Free?
    ensures s.flag && !s.mutex.Parent? ==> Run(s, turns).flag
    decreases Distance(s)
  {
    if s.mutex.Free? {
      return [];
    }
    var t := if s.mutex.Parent? then ParentMoves else WorkerMoves(s.mutex.i);
    if s.mutex.Parent? {
      ParentSound(s);
    } else {
      assert MutexOk(s, s.mutex.i);
      WorkerSound(s, s.mutex.i);
    }
    var rest := MutexFrees(Step(s, t));
    turns := [t] + rest;
    RunConcat(s, [t], rest);
    RunOne(s, t);
  }

  lemma {:induction false} SomeTaker(pipes: seq<nat>, workers: seq<WorkerPc>) returns (i: nat)
    requires |pipes| == |workers| && Takers(pipes, workers) > 0
    ensures i < |pipes| && (pipes[i] > 0 || Accepting(workers[i]))
  {
    if pipes[0] > 0 || Accepting(workers[0]) {
      i := 0;
    } else {
      i := SomeTaker(pipes[1..], workers[1..]);
      i := i + 1;
    }
  }

  /** How far worker i is from setting the flag. */
  function ToFlag(w: WorkerPc): nat {
    match w
    case Waiting => 4
    case Received => 3
    case Accepted => 2
    case Holding => 1
    case Releasing => 0
  }

  lemma {:induction false} WorkerFlags(s: Shared, i: nat) returns (turns: seq<Turn>)
    requires Inv(s) && i < |s.workers| && (s.pipes[i] > 0 || Accepting(s.workers[i]))
    requires s.mutex.Free? || s.workers[i].Holding?
    ensures Inv(Run(s, turns)) && Run(s, turns).flag && Run(s, turns).mutex.Worker?
    decreases ToFlag(s.workers[i])
  {
    TakersAtLeast(s.pipes, s.workers, i);
    assert MutexOk(s, i);
    var t := WorkerMoves(i);
    WorkerSound(s, i);
    var rest := [];
    if !s.workers[i].Holding? {
      rest := WorkerFlags(Step(s, t), i);
    }
    turns := [t] + rest;
    RunConcat(s, [t], rest);
    RunOne(s, t);
  }

  /** From every reachable state the flag can be set again: no schedule strands the token. */
  lemma TokenReturns(n: nat, turns: seq<Turn>) returns (more: seq<Turn>)
    requires n > 0
    ensures Run(Start(n), turns + more).flag
  {
    StartSound(n);
    RunSound(Start(n), turns);
    var s := Run(Start(n), turns);
    var out := MutexFrees(s);
    var s' := Run(s, out);
    more := out;
    RunConcat(s, out, []);
    if !s'.flag {
      var i := SomeTaker(s'.pipes, s'.workers);
      var rest := WorkerFlags(s', i);
      more := out + rest;
      RunConcat(s, out, rest);
    }
    RunConcat(Start(n), turns, more);
  }

  // ----- whom the parent notifies

  /** The workers from i on whose pipes have more notices in them than before, once for each. */
  function Gained(before: seq<nat>, after: seq<nat>, i: nat): seq<nat>
    decreases |before| - i
  {
    if i >= |before| || i >= |after| then [] else
      var more: nat := if after[i] > before[i] then after[i] - before[i] else 0;
      seq(more, _ => i) + Gained(before, after, i + 1)
  }

  /** The workers notified in a run, in order, as seen at the pipes. */
  function Notices(s: Shared, turns: seq<Turn>): seq<nat>
    requires |s.pipes| == |s.workers| > 0
    decreases |turns|
  {
    if turns == [] then [] else
      Gained(s.pipes, Step(s, turns[0]).pipes, 0) + Notices(Step(s, turns[0]), turns[1..])
  }

  lemma {:induction false} GainedNone(before: seq<nat>, after: seq<nat>, i: nat)
    requires |after| == |before| && forall j | i <= j < |before| :: after[j] <= before[j]
    ensures Gained(before, after, i) == []
    decreases |before| - i
  {
    if i < |before| {
      GainedNone(before, after, i + 1);
    }
  }

  lemma {:induction false} GainedOne(before: seq<nat>, after: seq<nat>, i: nat, to: nat)
    requires i <= to < |before| && after == before[to := before[to] + 1]
    ensures Gained(before, after, i) == [to]
    decreases |before| - i
  {
    if i < to {
      GainedOne(before, after, i + 1, to);
    } else {
      GainedNone(before, after, to + 1);
      assert seq(1, _ => to) == [to];
    }
  }

  /** A turn sends one notice, to the worker whose turn it is, or none. */
  lemma StepNotices(s: Shared, t: Turn)
    requires |s.pipes| == |s.workers| > 0
    ensures var sent := Gained(s.pipes, Step(s, t).pipes, 0);
      if t.ParentMoves? && s.parent.Locked? && s.flag
      then sent == [s.turn % |s.pipes|] && Step(s, t).turn == s.turn % |s.pipes| + 1
      else sent == [] && Step(s, t).turn == s.turn
  {
    if t.ParentMoves? && s.parent.Locked? && s.flag {
      GainedOne(s.pipes, Step(s, t).pipes, 0, s.turn % |s.pipes|);
    } else {
      GainedNone(s.pipes, Step(s, t).pipes, 0);
    }
  }

  lemma DivMod(k: nat, n: nat, q: nat, r: nat)
    requires n > 0 && r < n && k == q * n + r
    ensures k / n == q && k % n == r
  {
    var d := k / n - q;
    assert k == (k / n) * n + k % n && (k / n) * n == q * n + d * n;
    assert (d >= 1 ==> d * n >= n) && (d <= -1 ==> d * n <= 0 - n);
  }

  lemma NextMod(k: nat, n: nat)
    requires n > 0
    ensures (k % n + 1) % n == (k + 1) % n
  {
    var q, r := k / n, k % n;
    if r + 1 < n {
      DivMod(k + 1, n, q, r + 1);
      DivMod(r + 1, n, 0, r + 1);
    } else {
      assert (q + 1) * n == q * n + n;
      DivMod(k + 1, n, q + 1, 0);
      DivMod(r + 1, n, 1, 0);
    }
  }

  lemma {:induction false} RunNotices(s: Shared, turns: seq<Turn>, k: nat)
    requires |s.pipes| == |s.workers| > 0 && s.turn % |s.pipes| == k % |s.pipes|
    ensures forall i {:trigger Notices(s, turns)[i]} | 0 <= i < |Notices(s, turns)| ::
      Notices(s, turns)[i] == (k + i) % |s.pipes|
    decreases |turns|
  {
    if turns != [] {
      StepNotices(s, turns[0]);
      NextMod(k, |s.pipes|);
      hide ParentStep, WorkerStep;
      var r := Step(s, turns[0]);
      assert |r.pipes| == |s.pipes| && |r.workers| == |s.workers| by { RunOne(s, turns[0]); }
      if r.turn == s.turn {
        RunNotices(r, turns[1..], k);
      } else {
        RunNotices(r, turns[1..], k + 1);
      }
    }
  }

  /** In every run the workers are notified in turn: notice i goes to worker i % n. */
  lemma RoundRobin(n: nat, turns: seq<Turn>, i: nat)
    requires n > 0 && i < |Notices(Start(n), turns)|
    ensures Notices(Start(n), turns)[i] == i % n
  {
    RunNotices(Start(n), turns, 0);
  }

  function Count(notices: seq<nat>, w: nat): nat {
    if notices == [] then 0 else
      Count(notices[..|notices| - 1], w) + if notices[|notices| - 1] == w then 1 else 0
  }

  /** q rounds of n notices and r more. */
  lemma {:induction false} CountInTurn(notices: seq<nat>, n: nat, w: nat, q: nat, r: nat)
    requires w < n && r < n && |notices| == q * n + r
    requires forall i {:trigger notices[i]} | 0 <= i < |notices| :: notices[i] == i % n
    ensures Count(notices, w) == q + if w < r then 1 else 0
    decreases |notices|
  {
    if notices != [] {
      var last := |notices| - 1;
      if r > 0 {
        DivMod(last, n, q, r - 1);
        CountInTurn(notices[..last], n, w, q, r - 1);
      } else {
        assert q > 0 && (q - 1) * n == q * n - n;
        DivMod(last, n, q - 1, n - 1);
        CountInTurn(notices[..last], n, w, q - 1, n - 1);
      }
    } else {
      NoRounds(q, n, r);
    }
  }

  lemma NoRounds(q: nat, n: nat, r: nat)
    requires n > 0 && q * n + r == 0
    ensures q == 0 && r == 0
  {
    assert q > 0 ==> q * n >= n;
  }

  lemma CountShared(notices: seq<nat>, n: nat, v: nat, w: nat)
    requires v < n && w < n
    requires forall i {:trigger notices[i]} | 0 <= i < |notices| :: notices[i] == i % n
    ensures -1 <= Count(notices, v) - Count(notices, w) <= 1
  {
    hide Count;
    var q, r := |notices| / n, |notices| % n;
    assert |notices| == q * n + r;
    CountInTurn(notices, n, v, q, r);
    CountInTurn(notices, n, w, q, r);
  }

  /** So in every run any two workers were notified equally often, or one of them once more. */
  lemma NoticesShared(n: nat, turns: seq<Turn>, v: nat, w: nat)
    requires v < n && w < n
    ensures var sent := Notices(Start(n), turns);
      -1 <= Count(sent, v) - Count(sent, w) <= 1
  {
    var sent := Notices(Start(n), turns);
    forall i | 0 <= i < |sent| ensures sent[i] == i % n {
      RoundRobin(n, turns, i);
    }
    hide Notices, Count;
    CountShared(sent, n, v, w);
  }

  lemma {:induction false} NoticesConcat(s: Shared, a: seq<Turn>, b: seq<Turn>)
    requires |s.pipes| == |s.workers| > 0
    ensures Notices(s, a + b) == Notices(s, a) + Notices(Run(s, a), b)
    decreases |a|
  {
    if a == [] {
      assert a + b == b;
    } else {
      assert (a + b)[1..] == a[1..] + b;
      NoticesConcat(Step(s, a[0]), a[1..], b);
    }
  }

  /** Trylock, send, clear the flag, unlock; the third turn unlocks when the flag was clear. */
  const VISIT: seq<Turn> := [ParentMoves, ParentMoves, ParentMoves, ParentMoves]

  /**
   The parent's callback when nobody is in the critical section: with the flag set it sends one notice,
   to the worker whose turn it is, and clears the flag.
   */
  lemma ParentVisit(s: Shared)
    requires Inv(s) && s.mutex.Free? && s.flag
    ensures Notices(s, VISIT) == [s.turn % |s.pipes|]
    ensures var r := Run(s, VISIT); !r.flag && r.mutex.Free? && r.parent.Idle? && r.workers == s.workers
  {
    var s1 := ParentStep(s);
    var s2 := ParentStep(s1);
    var s3 := ParentStep(s2);
    StepNotices(s, ParentMoves);
    StepNotices(s1, ParentMoves);
    StepNotices(s2, ParentMoves);
    StepNotices(s3, ParentMoves);
    assert VISIT[1..] == [ParentMoves, ParentMoves, ParentMoves];
    assert VISIT[1..][1..] == [ParentMoves, ParentMoves];
    assert VISIT[1..][1..][1..] == [ParentMoves] && VISIT[1..][1..][1..][1..] == [];
    hide Gained;
  }

  /** With the flag clear it only locks and unlocks. */
  lemma ParentLooks(s: Shared)
    requires Inv(s) && s.mutex.Free? && !s.flag
    ensures ParentStep(ParentStep(ParentStep(s))) == s
  {
  }

  /** After every run there is a way on to the next notice, so by turns every worker's is ahead. */
  lemma NoticeFollows(n: nat, turns: seq<Turn>) returns (more: seq<Turn>)
    requires n > 0
    ensures |Notices(Start(n), turns + more)| > |Notices(Start(n), turns)|
  {
    StartSound(n);
    RunSound(Start(n), turns);
    var s := Run(Start(n), turns);
    var out := MutexFrees(s);
    more := out;
    RunConcat(s, out, []);
    if !Run(s, out).flag {
      var i := SomeTaker(Run(s, out).pipes, Run(s, out).workers);
      var flagged := WorkerFlags(Run(s, out), i);
      RunConcat(s, out, flagged);
      var free := MutexFrees(Run(s, out + flagged));
      RunConcat(s, out + flagged, free);
      more := out + flagged + free;
    }
    ParentVisit(Run(s, more));
    NoticesConcat(s, more, VISIT);
    NoticesConcat(Start(n), turns, more + VISIT);
    more := more + VISIT;
  }

  // ----- schedules without end

  /** The state after the first i turns of a schedule. */
  function At(n: nat, schedule: nat -> Turn, i: nat): (s: Shared)
    requires n > 0
    ensures |s.pipes| == |s.workers| == n
  {
    if i == 0 then Start(n) else Step(At(n, schedule, i - 1), schedule(i - 1))
  }

  lemma {:induction false} AtSound(n: nat, schedule: nat -> Turn, i: nat)
    requires n > 0
    ensures Inv(At(n, schedule, i))
  {
    if i == 0 {
      StartSound(n);
    } else {
      AtSound(n, schedule, i - 1);
      StepSound(At(n, schedule, i - 1), schedule(i - 1));
    }
  }

  lemma StepSound(s: Shared, t: Turn)
    requires Inv(s)
    ensures Inv(Step(s, t))
  {
    match t
    case ParentMoves => ParentSound(s);
    case WorkerMoves(i) =>
      if i < |s.workers| {
        WorkerSound(s, i);
      }
  }

  /** A turn of worker w that is not spent waiting for the mutex. */
  ghost predicate Useful(n: nat, schedule: nat -> Turn, w: nat, j: nat)
    requires w < n
  {
    && schedule(j) == WorkerMoves(w)
    && (At(n, schedule, j).workers[w].Accepted? ==> At(n, schedule, j).mutex.Free?)
  }

  /** Every worker has useful turns again and again: the scheduler is fair, and so is the mutex. */
  ghost predicate Fair(n: nat, schedule: nat -> Turn) {
    forall w: nat, i: nat {:trigger UsefulFrom(n, schedule, w, i)} | w < n :: UsefulFrom(n, schedule, w, i)
  }

  ghost predicate UsefulFrom(n: nat, schedule: nat -> Turn, w: nat, i: nat)
    requires w < n
  {
    exists j: nat :: j >= i && Useful(n, schedule, w, j)
  }

  /** Worker w holds the token: a notice for it is under way, or it is accepting. */
  predicate Takes(s: Shared, w: nat)
    requires |s.pipes| == |s.workers|
  {
    w < |s.workers| && (s.pipes[w] > 0 || Accepting(s.workers[w]))
  }

  /** How many useful turns the worker is from setting the flag. */
  function ToGo(s: Shared, w: nat): nat
    requires w < |s.workers|
  {
    if s.workers[w].Releasing? then 5 else ToFlag(s.workers[w])
  }

  /** While the flag is clear nobody but the worker itself moves the token. */
  lemma TokenWaits(s: Shared, t: Turn, w: nat)
    requires Inv(s) && !s.flag && Takes(s, w)
    ensures var r := Step(s, t);
      |r.pipes| == |r.workers| == |s.workers| && (r.flag || (Takes(r, w) && ToGo(r, w) <= ToGo(s, w)))
  {
    TakersAtLeast(s.pipes, s.workers, w);
  }

  lemma TokenMoves(s: Shared, w: nat)
    requires Inv(s) && !s.flag && Takes(s, w) && (s.workers[w].Accepted? ==> s.mutex.Free?)
    ensures var r := Step(s, WorkerMoves(w));
      |r.pipes| == |r.workers| == |s.workers| && (r.flag || (Takes(r, w) && ToGo(r, w) < ToGo(s, w)))
  {
    TakersAtLeast(s.pipes, s.workers, w);
  }

  /** From turn i to turn j the flag is set at some point, or the token is where it was or nearer. */
  lemma {:induction false} TokenPersists(n: nat, schedule: nat -> Turn, i: nat, j: nat, w: nat) returns (k: nat)
    requires n > 0 && i <= j && Takes(At(n, schedule, i), w)
    ensures i <= k <= j
    ensures At(n, schedule, k).flag || (k == j && Takes(At(n, schedule, j), w)
      && ToGo(At(n, schedule, j), w) <= ToGo(At(n, schedule, i), w))
    decreases j - i
  {
    if i == j {
      return i;
    }
    k := TokenPersists(n, schedule, i, j - 1, w);
    if !At(n, schedule, k).flag {
      AtSound(n, schedule, j - 1);
      TokenWaits(At(n, schedule, j - 1), schedule(j - 1), w);
      k := j;
    }
  }

  lemma {:induction false} TokenArrives(n: nat, schedule: nat -> Turn, i: nat, w: nat) returns (k: nat)
    requires n > 0 && Fair(n, schedule) && Takes(At(n, schedule, i), w)
    ensures k >= i && At(n, schedule, k).flag
    decreases ToGo(At(n, schedule, i), w)
  {
    hide Inv, Step, ToGo;
    assert w < n;
    hide Takes;
    assert UsefulFrom(n, schedule, w, i);
    var j: nat :| j >= i && Useful(n, schedule, w, j);
    k := TokenPersists(n, schedule, i, j, w);
    if !At(n, schedule, k).flag {
      AtSound(n, schedule, j);
      TokenMoves(At(n, schedule, j), w);
      k := j + 1;
      if !At(n, schedule, k).flag {
        k := TokenArrives(n, schedule, k, w);
      }
    }
  }

  /** Under every fair schedule the flag is set again and again. */
  lemma FairReturns(n: nat, schedule: nat -> Turn, i: nat) returns (k: nat)
    requires n > 0 && Fair(n, schedule)
    ensures k >= i && At(n, schedule, k).flag
  {
    AtSound(n, schedule, i);
    var s := At(n, schedule, i);
    if s.flag {
      return i;
    }
    var w := SomeTaker(s.pipes, s.workers);
    k := TokenArrives(n, schedule, i, w);
  }

  // A fair scheduler alone is not enough: the parent's trylock can always be ahead of the worker.

  /** One worker; from turn 6 on it only has a turn while the parent holds the mutex. */
  function Unlucky(i: nat): Turn {
    if i < 4 then ParentMoves
    else if i < 6 then WorkerMoves(0)
    else if i % 4 == 3 then WorkerMoves(0)
    else ParentMoves
  }

  /** The worker has accepted a client, and wants the mutex to say so. */
  const STUCK: Shared := Shared(false, Free, Idle, 1, [0], [Accepted])

  lemma FirstTurns()
    ensures At(1, Unlucky, 6) == STUCK
  {
    var s1 := Shared(true, Parent, Locked, 0, [0], [Waiting]);
    var s4 := Shared(false, Free, Idle, 1, [1], [Waiting]);
    assert Start(1) == Shared(true, Free, Idle, 0, [0], [Waiting]);
    assert At(1, Unlucky, 1) == s1;
    assert At(1, Unlucky, 2) == Shared(true, Parent, Sent, 1, [1], [Waiting]);
    assert At(1, Unlucky, 3) == Shared(false, Parent, Unlocking, 1, [1], [Waiting]);
    assert At(1, Unlucky, 4) == s4;
    assert At(1, Unlucky, 5) == Shared(false, Free, Idle, 1, [0], [Received]);
  }

  lemma {:induction false} FourTurns(k: nat)
    ensures At(1, Unlucky, 6 + 4 * k) == STUCK
    ensures !At(1, Unlucky, 7 + 4 * k).flag && !At(1, Unlucky, 8 + 4 * k).flag && !At(1, Unlucky, 9 + 4 * k).flag
  {
    if k == 0 {
      FirstTurns();
    } else {
      FourTurns(k - 1);
      OneRound(k - 1);
    }
    OneRound(k);
  }

  lemma OneRound(k: nat)
    requires At(1, Unlucky, 6 + 4 * k) == STUCK
    ensures At(1, Unlucky, 10 + 4 * k) == STUCK
    ensures !At(1, Unlucky, 7 + 4 * k).flag && !At(1, Unlucky, 8 + 4 * k).flag && !At(1, Unlucky, 9 + 4 * k).flag
  {
    var i := 6 + 4 * k;
    assert At(1, Unlucky, i + 1) == STUCK.(mutex := Parent, parent := Locked);
    assert At(1, Unlucky, i + 2) == At(1, Unlucky, i + 1);
    assert At(1, Unlucky, i + 3) == STUCK.(mutex := Parent, parent := Unlocking);
  }

  /** Both processes have turns again and again, and yet the flag is never set again. */
  lemma TokenStarves(i: nat)
    ensures i >= 6 ==> !At(1, Unlucky, i).flag
    ensures Unlucky(6 + 4 * i) == ParentMoves && Unlucky(7 + 4 * i) == WorkerMoves(0)
  {
    if i >= 6 {
      var k, r := (i - 6) / 4, (i - 6) % 4;
      assert i == 6 + 4 * k + r;
      FourTurns(k);
    }
  }
}
