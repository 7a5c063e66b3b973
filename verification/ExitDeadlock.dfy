/** Why the exec counts are only promised until the container is deleted: for every number of
    execs there is a run in which Starts that found the container before its Delete fill the
    waiter's channel after the waiter has stopped receiving. The next send then blocks while it
    holds the lock that the waiter needs to remove the channel. */
module ExitDeadlock {
  import opened ExitLifecycle

  ghost predicate Reachable(s: State) {
    exists ss, steps :: IsRun(ss, steps) && ss[|ss| - 1] == s
  }

  lemma ReachStart()
    ensures Reachable(Start())
  {
    assert IsRun([Start()], []);
  }

  lemma ReachStep(s: State, step: Step)
    requires Reachable(s) && Enabled(s, step)
    ensures Reachable(Next(s, step))
  {
    hide Enabled, Next;
    var ss, steps :| IsRun(ss, steps) && ss[|ss| - 1] == s;
    var ss', steps' := ss + [Next(s, step)], steps + [step];
    forall i | 0 <= i < |steps'| ensures Enabled(ss'[i], steps'[i]) && ss'[i + 1] == Next(ss'[i], steps'[i]) {
      if i < |steps| {
        assert ss'[i] == ss[i] && ss'[i + 1] == ss[i + 1] && steps'[i] == steps[i];
      }
    }
    assert IsRun(ss', steps');
  }

  // ---------------------------------------------------------------- the cast

  function ExecPid(i: nat): Pid { i + 2 }

  function ExecExit(i: nat): Exit { Exit(ExecPid(i), 0) }

  function InitExited(): Exit { Exit(1, 0) }

  /** Only the init of `c` and its first `n` execs have ever run. */
  ghost predicate Cast(pids: map<Process, Pid>, c: Container, n: nat) {
    && Init(c) in pids && pids[Init(c)] == 1
    && forall p :: p in pids ==> pids[p] < ExecPid(n) && (p == Init(c) || (p.Exec? && p.c == c && p.id < n))
  }

  ghost predicate Idle(s: State) {
    s.subs == map[] && s.flights == map[]
  }

  // ---------------------------------------------------------------- n execs run

  ghost predicate Running(s: State, c: Container, n: nat) {
    && Idle(s) && s.tasks == multiset{} && s.execCount == map[] && s.initExit == map[] && s.reaped == map[]
    && c !in s.deleted && Cast(s.pids, c, n) && Count(s.runningExecs, c) == n
    && 1 in s.running && s.running[1] == [Init(c)]
    && (forall i: nat :: i < n ==> ExecPid(i) in s.running && s.running[ExecPid(i)] == [Exec(c, i)])
    && (forall q :: q in s.running ==> q < ExecPid(n))
  }

  lemma CreateRuns(c: Container) returns (s: State)
    ensures Reachable(s) && Running(s, c, 0)
  {
    hide Reachable;
    ReachStart();
    ReachStep(Start(), CreateStep(0, c));
    var s1 := Next(Start(), CreateStep(0, c));
    ReachStep(s1, ForkStep(0, 1));
    var s2 := Next(s1, ForkStep(0, 1));
    ReachStep(s2, HandleStartedStep(0));
    s := Next(s2, HandleStartedStep(0));
  }

  /** An exec of `c` is forked inside its Start handshake. */
  lemma ExecForks(s: State, c: Container, n: nat) returns (s': State)
    requires Reachable(s) && Running(s, c, n)
    ensures Reachable(s')
    ensures s' == Begin(s, 0, Exec(c, n)).(
      runningExecs := s'.runningExecs, live := s'.live, pids := s.pids[Exec(c, n) := ExecPid(n)])
    ensures Count(s'.runningExecs, c) == n + 1
  {
    hide Reachable;
    var p, pid := Exec(c, n), ExecPid(n);
    ReachStep(s, StartExecStep(0, p));
    var s1 := Next(s, StartExecStep(0, p));
    ReachStep(s1, ForkStep(0, pid));
    s' := Next(s1, ForkStep(0, pid));
  }

  lemma ExecRuns(s: State, c: Container, n: nat) returns (s': State)
    requires Reachable(s) && Running(s, c, n)
    ensures Reachable(s') && Running(s', c, n + 1)
  {
    hide Reachable;
    var s2 := ExecForks(s, c, n);
    assert s2.subs[0] == map[] && ExecPid(n) !in s.running;
    ReachStep(s2, HandleStartedStep(0));
    s' := Next(s2, HandleStartedStep(0));
  }

  lemma {:induction false} ExecsRun(c: Container, n: nat) returns (s: State)
    ensures Reachable(s) && Running(s, c, n)
  {
    hide Reachable, Running;
    if n == 0 {
      s := CreateRuns(c);
    } else {
      var s0 := ExecsRun(c, n - 1);
      s := ExecRuns(s0, c, n - 1);
    }
  }

  // ---------------------------------------------------------------- the init has exited

  /** No handshake is in flight, and the execs from `j` on still run. */
  ghost predicate Left(s: State, c: Container, n: nat, j: nat) {
    && Idle(s) && Cast(s.pids, c, n)
    && (forall i: nat :: j <= i < n ==>
          ExecPid(i) in s.running && s.running[ExecPid(i)] == [Exec(c, i)] && ExecPid(i) !in s.reaped)
  }

  function Waiter(c: Container): Task { Wait(Init(c), InitExited()) }

  /** The waiter has received the counts of the first `j` of `n` execs. */
  ghost predicate Waiting(s: State, c: Container, n: nat, j: nat) {
    && Left(s, c, n, j) && s.tasks == multiset{Waiter(c)}
    && Received(s.execCount, c, n) && Count(s.runningExecs, c) == n - j
  }

  /** The channel has room for `n` counts and holds none. */
  ghost predicate Received(chans: map<Container, Channel>, c: Container, n: nat) {
    c in chans && chans[c].cap == n && chans[c].received == |chans[c].sent|
  }

  lemma InitWaits(s: State, c: Container, n: nat) returns (s': State)
    requires Reachable(s) && Running(s, c, n) && n > 0
    ensures Reachable(s') && Waiting(s', c, n, 0)
  {
    hide Reachable;
    var e := InitExited();
    ReachStep(s, ReapStep(e));
    var s1 := Next(s, ReapStep(e));
    assert Handles([Init(c)], e) == multiset{InitExit(Init(c), e)};
    assert s1.tasks == multiset{InitExit(Init(c), e)} && s1.subs == map[];
    ReachStep(s1, TaskStep(InitExit(Init(c), e)));
    s' := Next(s1, TaskStep(InitExit(Init(c), e)));
    assert s'.tasks == multiset{Wait(Init(c), e)};
  }

  lemma ExecReaped(s: State, c: Container, n: nat, j: nat) returns (s': State)
    requires Reachable(s) && Left(s, c, n, j) && s.tasks == multiset{Waiter(c)} && j < n
    ensures Reachable(s') && Left(s', c, n, j + 1)
    ensures s'.tasks == multiset{Waiter(c), Publish(Exec(c, j), ExecExit(j))}
    ensures s'.execCount == s.execCount && s'.runningExecs == s.runningExecs
  {
    hide Reachable;
    var p, e := Exec(c, j), ExecExit(j);
    ReachStep(s, ReapStep(e));
    s' := Next(s, ReapStep(e));
    assert Handles([p], e) == multiset{Publish(p, e)};
    assert s'.subs == map[];
  }

  lemma ExecPublished(s: State, c: Container, n: nat, j: nat) returns (s': State)
    requires Reachable(s) && Left(s, c, n, j + 1) && s.tasks == multiset{Waiter(c), Publish(Exec(c, j), ExecExit(j))}
    ensures Reachable(s') && Left(s', c, n, j + 1) && s'.tasks == multiset{Waiter(c), Uncount(Exec(c, j))}
    ensures s'.execCount == s.execCount && s'.runningExecs == s.runningExecs
  {
    hide Reachable;
    var t := Publish(Exec(c, j), ExecExit(j));
    ReachStep(s, TaskStep(t));
    s' := Next(s, TaskStep(t));
  }

  lemma ExecCounted(s: State, c: Container, n: nat, j: nat) returns (s': State)
    requires Reachable(s) && Left(s, c, n, j + 1) && s.tasks == multiset{Waiter(c), Uncount(Exec(c, j))}
    requires c in s.execCount && Count(s.runningExecs, c) == n - j
    ensures Reachable(s') && Left(s', c, n, j + 1) && s'.tasks == multiset{Waiter(c)}
    ensures Count(s'.runningExecs, c) == n - j - 1 && c in s'.execCount
    ensures s'.execCount[c] == s.execCount[c].(sent := s.execCount[c].sent + [n - j - 1])
  {
    hide Reachable;
    var t := Uncount(Exec(c, j));
    ReachStep(s, TaskStep(t));
    s' := Next(s, TaskStep(t));
  }

  /** One exec exits and its count is sent. */
  lemma ExecExits(s: State, c: Container, n: nat, j: nat) returns (s': State)
    requires Reachable(s) && Waiting(s, c, n, j) && j < n
    ensures Reachable(s') && Left(s', c, n, j + 1) && s'.tasks == multiset{Waiter(c)}
    ensures Count(s'.runningExecs, c) == n - j - 1 && c in s.execCount && c in s'.execCount
    ensures s'.execCount[c] == s.execCount[c].(sent := s.execCount[c].sent + [n - j - 1])
  {
    hide Reachable, Left;
    var s1 := ExecReaped(s, c, n, j);
    var s2 := ExecPublished(s1, c, n, j);
    s' := ExecCounted(s2, c, n, j);
  }

  lemma {:induction false} ExecsExit(c: Container, n: nat, j: nat) returns (s: State)
    requires n > 0 && j < n
    ensures Reachable(s) && Waiting(s, c, n, j)
  {
    hide Reachable, Running;
    if j == 0 {
      var s0 := ExecsRun(c, n);
      s := InitWaits(s0, c, n);
    } else {
      var s0 := ExecsExit(c, n, j - 1);
      var s1 := ExecExits(s0, c, n, j - 1);
      ReachStep(s1, TaskStep(Waiter(c)));
      s := Next(s1, TaskStep(Waiter(c)));
      assert s.tasks == multiset{Waiter(c)};
    }
  }

  // ---------------------------------------------------------------- the container is deleted

  /** The waiter has published the init exit and `c` is deleted; `k` late Starts are under way,
      of which `f` have failed. */
  ghost predicate Late(s: State, c: Container, n: nat, k: nat, f: nat) {
    && s.tasks == multiset{Cleanup(c)} && c in s.deleted && c !in s.initExit && Cast(s.pids, c, n)
    && c in s.execCount && s.execCount[c].cap == n && |s.execCount[c].sent| == s.execCount[c].received + f
    && s.subs.Keys == s.flights.Keys
    && (forall h :: h in s.flights ==> h < k && s.flights[h] == Flight(Exec(c, n + h), h < f))
    && (forall h: nat :: h < k ==> h in s.flights)
  }

  lemma WaiterReleased(c: Container, n: nat) returns (s: State)
    requires n > 0
    ensures Reachable(s) && Idle(s) && Cast(s.pids, c, n) && Received(s.execCount, c, n)
    ensures s.tasks == multiset{PublishLast(Init(c), InitExited())}
  {
    hide Reachable;
    var s0 := ExecsExit(c, n, n - 1);
    var s1 := ExecExits(s0, c, n, n - 1);
    ReachStep(s1, TaskStep(Waiter(c)));
    s := Next(s1, TaskStep(Waiter(c)));
  }

  lemma ContainerDeleted(c: Container, n: nat) returns (s: State)
    requires n > 0
    ensures Reachable(s) && Late(s, c, n, 0, 0)
  {
    hide Reachable;
    var t := PublishLast(Init(c), InitExited());
    var s2 := WaiterReleased(c, n);
    ReachStep(s2, TaskStep(t));
    var s3 := Next(s2, TaskStep(t));
    assert s3.tasks == multiset{Cleanup(c)};
    assert TaskExit(Init(c), InitExited()) in s3.events;
    ReachStep(s3, DeleteStep(c));
    s := Next(s3, DeleteStep(c));
  }

  lemma {:induction false} LateStarts(c: Container, n: nat, k: nat) returns (s: State)
    requires n > 0
    ensures Reachable(s) && Late(s, c, n, k, 0)
  {
    hide Reachable;
    if k == 0 {
      s := ContainerDeleted(c, n);
    } else {
      var s0 := LateStarts(c, n, k - 1);
      var p := Exec(c, n + (k - 1));
      ReachStep(s0, StartExecStep(k - 1, p));
      s := Next(s0, StartExecStep(k - 1, p));
    }
  }

  lemma {:induction false} LateStartsFail(c: Container, n: nat, k: nat, f: nat) returns (s: State)
    requires n > 0 && f <= k
    ensures Reachable(s) && Late(s, c, n, k, f)
  {
    hide Reachable;
    if f == 0 {
      s := LateStarts(c, n, k);
    } else {
      var s0 := LateStartsFail(c, n, k, f - 1);
      ReachStep(s0, ExecFailedStep(f - 1));
      s := Next(s0, ExecFailedStep(f - 1));
    }
  }

  /** For every capacity `n` a run ends in a deadlock: the channel holds `n` counts nobody will
      receive, the only thread left is about to take the lock to remove it, and one more late
      Start of the deleted container is about to fail, which sends a count while it holds that
      lock. */
  lemma LateStartsDeadlock(c: Container, n: nat) returns (ss: seq<State>, steps: seq<Step>, h: Handle)
    requires n > 0
    ensures IsRun(ss, steps)
    ensures var s := ss[|ss| - 1];
      && c in s.deleted && s.tasks == multiset{Cleanup(c)}
      && c in s.execCount && s.execCount[c].cap == n && |s.execCount[c].sent| - s.execCount[c].received == n
      && Enabled(s, ExecFailedStep(h)) && s.flights[h].p.c == c
      && var ch := Next(s, ExecFailedStep(h)).execCount[c];
      |ch.sent| - ch.received > ch.cap
  {
    var s := LateStartsFail(c, n, n + 1, n);
    ss, steps :| IsRun(ss, steps) && ss[|ss| - 1] == s;
    h := n;
    assert h in s.flights;
  }
}
