/** What the exit lifecycle guarantees over every run: each exit is published exactly once,
    the init exit of a container comes last, and no send of an exec count blocks. */
module ExitTheorems {
  import opened ExitLifecycle
  import opened ExitInvariant

  lemma {:induction false} RunsKeepInv(ss: seq<State>, steps: seq<Step>, i: nat)
    requires IsRun(ss, steps) && i < |ss|
    ensures Inv(ss[i])
  {
    hide Inv, Next, Enabled;
    if i == 0 {
      InvStart();
    } else {
      RunsKeepInv(ss, steps, i - 1);
      InvKept(ss[i - 1], steps[i - 1]);
    }
  }

  /** Exactly once: once the handshake of a process is over, its exit is either not reaped
      and its process is in `running`, or it is published or about to be, once, and nothing
      else is. During a handshake the exit is noted by that handshake and by it alone. */
  lemma ExactlyOnce(ss: seq<State>, steps: seq<Step>, i: nat, p: Process, e: Exit)
    requires IsRun(ss, steps) && i < |ss|
    ensures var s := ss[i];
      && Pending(s.tasks, p, e) + Published(s.events, p, e) <= 1
      && (Pending(s.tasks, p, e) + Published(s.events, p, e) == 1 ==>
            p in s.pids && s.pids[p] in s.reaped && s.reaped[s.pids[p]] == e)
      && (p in s.pids && s.pids[p] in s.reaped && s.reaped[s.pids[p]] == e && Settled(s.flights, p) ==>
            Pending(s.tasks, p, e) + Published(s.events, p, e) == 1)
      && (p in s.pids && s.pids[p] !in s.reaped && Settled(s.flights, p) ==>
            s.pids[p] in s.running && s.running[s.pids[p]] == [p])
  {
    hide ExecInv, ContInv, KindInv, Pending, Published;
    RunsKeepInv(ss, steps, i);
    assert OnceInv(ss[i], p, e);
  }

  /** When nothing is left to do, every reaped process that was started has its one event. */
  lemma QuiescentRunsPublishAll(ss: seq<State>, steps: seq<Step>, i: nat, p: Process)
    requires IsRun(ss, steps) && i < |ss| && ss[i].tasks == multiset{} && ss[i].flights == map[]
    requires p in ss[i].pids && ss[i].pids[p] in ss[i].reaped
    ensures Published(ss[i].events, p, ss[i].reaped[ss[i].pids[p]]) == 1
  {
    ExactlyOnce(ss, steps, i, p, ss[i].reaped[ss[i].pids[p]]);
  }

  /** A reaped exit goes to the handshake of its process or to `running`, never to both. */
  lemma ExitGoesOneWay(ss: seq<State>, steps: seq<Step>, i: nat, e: Exit, p: Process)
    requires IsRun(ss, steps) && i < |steps| && steps[i] == ReapStep(e) && p in ss[i].pids && ss[i].pids[p] == e.pid
    ensures var s, s' := ss[i], ss[i + 1];
      var noted := Early(s'.flights, s'.subs, s'.pids, p);
      && Pending(s'.tasks, p, e) == (if noted then 0 else 1)
      && noted == (e.pid !in s.running) && noted == !Settled(s.flights, p)
  {
    hide ExecInv, ContInv, KindInv, Pending, Published, Handles, Stash, RecordAll;
    RunsKeepInv(ss, steps, i);
    RunsKeepInv(ss, steps, i + 1);
    var s, s' := ss[i], ss[i + 1];
    assert OnceInv(s, p, e) && OnceInv(s', p, e);
    FlightsReap(s.flights, s.subs, s.reaped, s.pids, e, p);
    assert s'.events == s.events;
  }

  // ---------------------------------------------------------------- the init exit is last

  /** Every exec event of a container precedes its init event, if that came from `running`. */
  ghost predicate InitLast(events: seq<Event>, taken: set<Container>) {
    forall i, j | 0 <= i < |events| && 0 <= j < |events| && events[i].p.Init? && events[j].p.Exec? ::
      events[i].p.c == events[j].p.c && events[i].p.c in taken ==> j < i
  }

  lemma NoExecAfterInit(s: State, p: Process, e: Exit)
    requires Inv(s) && Publish(p, e) in s.tasks && p.Exec? && p.c in s.taken
    ensures !Emitted(s.events, Init(p.c))
  {
    hide SubsInv, PidsInv, KindInv, Pending, Published, Early;
    assert Pending(s.tasks, p, e) > 0 by { TaskPending(s.tasks, Publish(p, e)); }
    NotEmitted(s, p, e);
    assert ExecInv(s, p) && ContInv(s, p.c, e);
    LiveIn(s.live, p, p.c);
  }

  lemma InitLastKept(s: State, step: Step)
    requires Inv(s) && Enabled(s, step) && InitLast(s.events, s.taken)
    ensures var s' := Next(s, step); InitLast(s'.events, s'.taken)
  {
    var s' := Next(s, step);
    match step
    case TaskStep(t) =>
      InitLastPerform(s, t);
    case ReapStep(e) =>
      InitLastReap(s, e);
    case _ =>
      assert s'.events == s.events && s'.taken == s.taken;
  }

  lemma InitLastPerform(s: State, t: Task)
    requires Inv(s) && t in s.tasks && InitLast(s.events, s.taken)
    ensures InitLast(s.events + Emits(t), s.taken)
  {
    hide Inv, Emitted;
    if t.Publish? && t.p.Exec? && t.p.c in s.taken {
      NoExecAfterInit(s, t.p, t.e);
      forall i | 0 <= i < |s.events| ensures s.events[i].p != Init(t.p.c) {
        EmittedAt(s.events, i);
      }
    } else if t.PublishLast? {
      assert t.p.Init? by { LastIsInit(s, t); }
    }
  }

  lemma LastIsInit(s: State, t: Task)
    requires Inv(s) && t in s.tasks && t.PublishLast?
    ensures t.p.Init?
  {}

  lemma EmittedAt(events: seq<Event>, i: nat)
    requires i < |events|
    ensures Emitted(events, events[i].p)
  {
    assert events[i] in events;
  }

  lemma InitLastReap(s: State, e: Exit)
    requires Inv(s) && e.pid !in s.reaped && InitLast(s.events, s.taken)
    ensures InitLast(s.events, Reap(s, e).taken)
  {
    hide ExecInv, ContInv, KindInv, OnceInv, Emitted, Stash, Handles, RecordAll, Pending, Early;
    ReapOf(s, e);
    if e.pid in s.running && s.running[e.pid][0].Init? {
      var p := s.running[e.pid][0];
      Quiet(s, p, e);
      forall i | 0 <= i < |s.events| ensures s.events[i].p != p {
        EmittedAt(s.events, i);
      }
    }
  }

  /** In every run, no exec exit of a container is published after its init exit, whenever
      the init exit was taken from `running`. */
  lemma {:induction false} InitExitIsLast(ss: seq<State>, steps: seq<Step>, i: nat)
    requires IsRun(ss, steps) && i < |ss|
    ensures InitLast(ss[i].events, ss[i].taken)
  {
    hide Inv, Next, Enabled;
    if i > 0 {
      InitExitIsLast(ss, steps, i - 1);
      RunsKeepInv(ss, steps, i - 1);
      InitLastKept(ss[i - 1], steps[i - 1]);
    }
  }

  lemma NoneCounted(s: State, step: Step, c: Container, e: Exit)
    requires ContInv(s, c, e) && Enabled(s, step) && c in s.taken && c !in Next(s, step).deleted
    ensures c in Next(s, step).taken && LiveOf(Next(s, step).live, c) <= LiveOf(s.live, c)
  {
    hide DueInv, TaskInv, CountInv, Emitted, HandleStarted, Settled;
    match step
    case TaskStep(t) =>
    case StartExecStep(h, p) =>
    case ExecFailedStep(h) =>
    case HandleStartedStep(h) => SameCountsHandled(s, h);
    case _ =>
  }

  /** From recording the init exit until the container is deleted, no exec is counted. */
  lemma {:induction false} NoExecCountedAfterInitExit(ss: seq<State>, steps: seq<Step>, i: nat, j: nat, c: Container)
    requires IsRun(ss, steps) && i <= j < |ss| && c in ss[i].taken
    requires forall k :: i <= k <= j ==> c !in ss[k].deleted
    ensures c in ss[j].taken && LiveOf(ss[j].live, c) <= LiveOf(ss[i].live, c)
    decreases j - i
  {
    hide ContInv, Next, Enabled, OnceInv, ExecInv, Structure, KindInv;
    if i < j {
      NoExecCountedAfterInitExit(ss, steps, i, j - 1, c);
      RunsKeepInv(ss, steps, j - 1);
      assert ContInv(ss[j - 1], c, Exit(0, 0));
      assert ss[j - 1 + 1] == Next(ss[j - 1], steps[j - 1]) && c !in ss[j].deleted;
      NoneCounted(ss[j - 1], steps[j - 1], c, Exit(0, 0));
    }
  }

  // ---------------------------------------------------------------- counts and channels

  /** `runningExecs` is the number of execs counted and not yet exited or failed. A channel
      holds no more counts than it has room for, so no send under the lock blocks. When the
      last counted exec is gone, a waiter that is still waiting has a zero to receive. */
  lemma CountsAndChannels(ss: seq<State>, steps: seq<Step>, i: nat, c: Container, e: Exit)
    requires IsRun(ss, steps) && i < |ss| && c !in ss[i].deleted
    ensures var s := ss[i];
      && Count(s.runningExecs, c) == |LiveOf(s.live, c)|
      && (c in s.execCount ==> |s.execCount[c].sent| <= s.execCount[c].cap)
      && (c in s.execCount && LiveOf(s.live, c) != {} ==> |s.execCount[c].sent| < s.execCount[c].cap)
      && (Wait(Init(c), e) in s.tasks && LiveOf(s.live, c) == {} ==>
            && c in s.execCount && s.execCount[c].received < |s.execCount[c].sent|
            && s.execCount[c].sent[|s.execCount[c].sent| - 1] == 0)
  {
    hide ExecInv, OnceInv, KindInv, Structure, TakenInv, DueInv, LiveOf;
    RunsKeepInv(ss, steps, i);
    assert ContInv(ss[i], c, e);
  }

  /** The waiter's loop, `n` rounds of it. */
  function Drain(s: State, t: Task, n: nat): State
    decreases n
  {
    if n == 0 then s else Drain(Perform(s, t), t, n - 1)
  }

  /** A channel that counts down to a zero not yet received lets the waiter go. */
  lemma {:induction false} DrainWakes(s: State, c: Container, e: Exit)
    requires c in s.execCount && Wait(Init(c), e) in s.tasks
    requires var ch := s.execCount[c];
      ch.received < |ch.sent| && forall k :: 0 <= k < |ch.sent| ==> ch.sent[k] == |ch.sent| - 1 - k
    ensures var ch := s.execCount[c];
      PublishLast(Init(c), e) in Drain(s, Wait(Init(c), e), |ch.sent| - ch.received).tasks
    decreases |s.execCount[c].sent| - s.execCount[c].received
  {
    var ch, t := s.execCount[c], Wait(Init(c), e);
    var s' := Perform(s, t);
    if ch.received + 1 == |ch.sent| {
      assert Drain(s, t, 1) == Drain(s', t, 0);
    } else {
      assert s'.execCount[c] == ch.(received := ch.received + 1) && t in s'.tasks;
      DrainWakes(s', c, e);
    }
  }

  /** The waiter always wakes: once no exec is counted, the values in its channel take its
      loop to the publication of the init exit. */
  lemma WaiterWakes(ss: seq<State>, steps: seq<Step>, i: nat, c: Container, e: Exit)
    requires IsRun(ss, steps) && i < |ss| && c !in ss[i].deleted
    requires Wait(Init(c), e) in ss[i].tasks && LiveOf(ss[i].live, c) == {}
    ensures c in ss[i].execCount
    ensures var ch := ss[i].execCount[c];
      && ch.received <= |ch.sent|
      && PublishLast(Init(c), e) in Drain(ss[i], Wait(Init(c), e), |ch.sent| - ch.received).tasks
  {
    hide ExecInv, OnceInv, KindInv, Structure, TakenInv, DueInv, LiveOf, Drain;
    RunsKeepInv(ss, steps, i);
    assert ContInv(ss[i], c, e);
    DrainWakes(ss[i], c, e);
  }

  // ---------------------------------------------------------------- nothing is left behind

  /** The thread is the waiter of `c`, at some point before it removes its channel. */
  predicate Waits(t: Task, c: Container) {
    ((t.Wait? || t.PublishLast?) && t.p == Init(c)) || t == Cleanup(c)
  }

  ghost predicate Owned(s: State, c: Container) {
    c in s.execCount ==> exists t :: t in s.tasks && Waits(t, c)
  }

  lemma OwnedPerform(s: State, t: Task, c: Container)
    requires Owned(s, c) && KindInv(s.tasks) && t in s.tasks
    ensures Owned(Perform(s, t), c)
  {
    hide CountAfter, Emits;
    var s' := Perform(s, t);
    if c in s'.execCount {
      var n, ch := Count(s.runningExecs, Owner(t)), Chan(s.execCount, Owner(t));
      if t.InitExit? && t.p == Init(c) && n != 0 {
        assert Wait(t.p, t.e) in s'.tasks;
      } else {
        assert c in s.execCount;
        var w :| w in s.tasks && Waits(w, c);
        if w != t {
          assert w in s'.tasks;
        } else if t.Wait? {
          assert t in s'.tasks || PublishLast(t.p, t.e) in s'.tasks;
        } else {
          assert t.PublishLast? && Cleanup(c) in s'.tasks;
        }
      }
    }
  }

  lemma TasksGrow(s: State, step: Step)
    requires Enabled(s, step) && !step.TaskStep?
    ensures s.tasks <= Next(s, step).tasks && Next(s, step).execCount.Keys == s.execCount.Keys
  {
    hide Handles, Publishes, Stash, RecordAll, Remove, Settled;
  }

  lemma OwnedKept(s: State, step: Step, c: Container)
    requires Owned(s, c) && KindInv(s.tasks) && Enabled(s, step)
    ensures Owned(Next(s, step), c)
  {
    if step.TaskStep? {
      OwnedPerform(s, step.t, c);
    } else {
      hide Enabled, Next, KindInv;
      TasksGrow(s, step);
      if c in s.execCount {
        var t :| t in s.tasks && Waits(t, c);
        assert t in Next(s, step).tasks;
      }
    }
  }

  /** A channel never outlives its waiter: in every run one is there only while a thread still
      has it to remove, so a service with nothing left to do has none. */
  lemma {:induction false} ChannelsAreRemoved(ss: seq<State>, steps: seq<Step>, i: nat, c: Container)
    requires IsRun(ss, steps) && i < |ss|
    ensures Owned(ss[i], c)
    ensures ss[i].tasks == multiset{} ==> c !in ss[i].execCount
  {
    hide Next, Enabled;
    if i > 0 {
      ChannelsAreRemoved(ss, steps, i - 1, c);
      RunsKeepInv(ss, steps, i - 1);
      OwnedKept(ss[i - 1], steps[i - 1], c);
    }
  }

  // ---------------------------------------------------------------- the conditions are needed

  /** If a second Start were admitted while a handshake of the same init is in flight, an
      exit arriving now would be published twice, whatever state the service is in. */
  lemma OverlapPublishesTwice(s: State, h: Handle, h': Handle, c: Container, e: Exit)
    requires Flying(s.flights, Init(c), h) && h in s.subs && h' !in s.subs && h' != h
    requires Init(c) in s.pids && s.pids[Init(c)] == e.pid && e.pid !in s.subs[h]
    ensures var s1 := Reap(StartInit(s, h', c), e);
      && Flying(s1.flights, Init(c), h) && h in s1.subs
      && var s2 := HandleStarted(s1, h);
      && Flying(s2.flights, Init(c), h') && h' in s2.subs
      && Pending(HandleStarted(s2, h').tasks, Init(c), e) >= 2
  {
    hide Remove, Stash, Handles, Publishes;
    var s1 := Reap(StartInit(s, h', c), e);
    assert s1.subs[h][e.pid] == [e] && s1.subs[h'][e.pid] == [e];
    var s2 := HandleStarted(s1, h);
    PublishesIs(Init(c), e);
    var s3 := HandleStarted(s2, h');
    assert s3.tasks == s1.tasks + multiset{Publish(Init(c), e)} + multiset{Publish(Init(c), e)};
  }

  /** An init that exits inside its own Start handshake is published directly, so an exec of
      the container that is still running is published after it. */
  lemma EarlyInitExitIsNotLast(s: State, h: Handle, c: Container, e: Exit, p: Process, e': Exit)
    requires Flying(s.flights, Init(c), h) && h in s.subs && Init(c) in s.pids && s.pids[Init(c)] == e.pid
    requires e.pid !in s.subs[h] && e.pid !in s.running
    requires p.Exec? && p.c == c && e'.pid != e.pid && e'.pid in s.running && s.running[e'.pid] == [p]
    ensures var s1 := Reap(s, e);
      && h in s1.flights && h in s1.subs
      && var s2 := Perform(HandleStarted(s1, h), Publish(Init(c), e));
      && Publish(Init(c), e) in HandleStarted(s1, h).tasks && Publish(p, e') in Reap(s2, e').tasks
      && Perform(Reap(s2, e'), Publish(p, e')).events == s.events + [TaskExit(Init(c), e), TaskExit(p, e')]
  {
    hide Stash, Publishes, CountAfter, ChanAfter, Then;
    var s1 := Reap(s, e);
    assert s1.subs[h][e.pid] == [e];
    PublishesIs(Init(c), e);
    var s2 := Perform(HandleStarted(s1, h), Publish(Init(c), e));
    assert s2.running == s.running - {e.pid};
    assert Lookup(s2.running, e'.pid) == [p];
    assert Handles([p], e') == multiset{Publish(p, e')};
  }

  /** If a Start of an exec that runs already were to fail and still hand back the process, the
      process would be registered a second time and its exit published twice. */
  lemma RestartedExecPublishesTwice(s: State, h: Handle, p: Process, e: Exit)
    requires p.Exec? && p in s.pids && s.pids[p] == e.pid && e.pid != 0
    requires e.pid in s.running && s.running[e.pid] == [p] && h !in s.subs && h !in s.flights
    ensures var s1 := ExecFailed(StartExec(s, h, p), h);
      && h in s1.flights && h in s1.subs
      && var s2 := HandleStarted(s1, h);
      && s2.running[e.pid] == [p, p]
      && Pending(Reap(s2, e).tasks, p, e) >= 2
  {
    hide Publishes, Stash, RecordAll, Send, Count, Handles;
    var s1 := ExecFailed(StartExec(s, h, p), h);
    var s2 := HandleStarted(s1, h);
    assert s2.running[e.pid] == [p] + [p];
    TwoHandles(p, e);
    assert [p] + [p] == [p, p] && Lookup(s2.running, e.pid) == [p, p];
  }

  lemma TwoHandles(p: Process, e: Exit)
    requires p.Exec?
    ensures Handles([p, p], e) == multiset{Publish(p, e), Publish(p, e)}
  {
    assert [p, p][1..] == [p];
    assert Handles([p], e) == multiset{Publish(p, e)};
  }
}
