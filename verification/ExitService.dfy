/** The critical sections of the shim's task service as they are written: methods that update the
    maps guarded by `lifecycleMu`. Each refines the step of the state machine it belongs to. */
module ExitService {
  import opened ExitLifecycle

  class Service {
    var exitSubscribers: Subscribers
    var running: Running
    var runningExecs: map<Container, int>
    var execCountSubscribers: map<Container, Channel>
    var containerInitExit: map<Container, Exit>

    /** The guarded maps are those of `s`. */
    ghost predicate Agrees(s: State)
      reads this
    {
      && exitSubscribers == s.subs && running == s.running && runningExecs == s.runningExecs
      && execCountSubscribers == s.execCount && containerInitExit == s.initExit
    }

    constructor ()
      ensures Agrees(Start())
    {
      exitSubscribers, running, runningExecs := map[], map[], map[];
      execCountSubscribers, containerInitExit := map[], map[];
    }

    /** preStart for a Create (shim/task/service.go:165-167). */
    method PreStart(h: Handle, ghost s: State, ghost p: Process)
      requires Agrees(s)
      modifies `exitSubscribers
      ensures Agrees(Begin(s, h, p))
      ensures exitSubscribers == old(exitSubscribers)[h := map[]]
    {
      exitSubscribers := exitSubscribers[h := map[]];
    }

    /** preStart for the start of an init, which is taken out of `running` first. */
    method PreStartInit(h: Handle, c: Container, pid: Pid, ghost s: State)
      requires Agrees(s) && Init(c) in s.pids && s.pids[Init(c)] == pid
      modifies `exitSubscribers, `running
      ensures Agrees(StartInit(s, h, c))
      ensures h in exitSubscribers && exitSubscribers[h] == map[]
      ensures forall p: Process :: p.c == c ==> p !in Lookup(running, pid)
    {
      hide Remove;
      exitSubscribers := exitSubscribers[h := map[]];
      TakeOut(c, pid);
    }

    method TakeOut(c: Container, pid: Pid)
      modifies `running
      ensures running == Remove(old(running), pid, c)
      ensures forall p: Process ::
        multiset(Lookup(running, pid))[p] == if p.c == c then 0 else multiset(Lookup(old(running), pid))[p]
      ensures forall q :: q != pid ==> Lookup(running, q) == Lookup(old(running), q)
    {
      var newRunning := WithoutContainer(Lookup(running, pid), c);
      if newRunning != [] {
        running := running[pid := newRunning];
      } else {
        running := running - {pid};
      }
      assert pid !in old(running) ==> running == old(running);
    }

    /** Start of an exec: refused once the init exit is recorded, counted otherwise. */
    method StartExec(h: Handle, p: Process, ghost s: State) returns (ok: bool)
      requires Agrees(s)
      modifies `exitSubscribers, `runningExecs
      ensures ok <==> p.c !in s.initExit
      ensures Agrees(if ok then ExitLifecycle.StartExec(s, h, p) else s)
      ensures Count(runningExecs, p.c) == old(Count(runningExecs, p.c)) + (if ok then 1 else 0)
      ensures ok ==> h in exitSubscribers && exitSubscribers[h] == map[]
    {
      ok := p.c !in containerInitExit;
      if ok {
        runningExecs := runningExecs[p.c := Count(runningExecs, p.c) + 1];
        exitSubscribers := exitSubscribers[h := map[]];
      }
    }

    /** handleStarted: an exit noted meanwhile is handed back, else the process is registered. */
    method HandleStarted(h: Handle, p: Process, pid: Pid, ghost s: State) returns (ees: seq<Exit>)
      requires Agrees(s) && h in s.subs && h in s.flights && s.flights[h].p == p
      requires pid == if p in s.pids then s.pids[p] else 0
      modifies `exitSubscribers, `running
      ensures Agrees(ExitLifecycle.HandleStarted(s, h))
      ensures ExitLifecycle.HandleStarted(s, h).tasks == s.tasks + Publishes(p, ees)
      ensures exitSubscribers == old(exitSubscribers) - {h}
      ensures ees == if pid in old(exitSubscribers)[h] then old(exitSubscribers)[h][pid] else []
      ensures pid != 0 && pid !in old(exitSubscribers)[h] ==>
        running == old(running)[pid := old(Lookup(running, pid)) + [p]]
      ensures pid == 0 || pid in old(exitSubscribers)[h] ==> running == old(running)
    {
      hide Publishes;
      PublishesNone(p);
      ghost var s' := ExitLifecycle.HandleStarted(s, h);
      var exits := exitSubscribers[h];
      var exited := pid in exits;
      ees := if exited then exits[pid] else [];
      exitSubscribers := exitSubscribers - {h};
      if pid != 0 && !exited {
        running := running[pid := Lookup(running, pid) + [p]];
      }
      assert running == s'.running && exitSubscribers == s'.subs;
    }

    /** processExits: every subscriber notes the exit, and the processes it ends are taken
        out of `running`; an init exit is recorded with its container. */
    method ProcessExit(e: Exit, ghost s: State) returns (cps: seq<Process>)
      requires Agrees(s)
      modifies `exitSubscribers, `running, `containerInitExit
      ensures Agrees(Reap(s, e)) && cps == Lookup(s.running, e.pid)
      ensures running == old(running) - {e.pid}
      ensures forall c :: Init(c) in cps ==> c in containerInitExit && containerInitExit[c] == e
      ensures forall c :: Init(c) !in cps ==> (c in containerInitExit <==> c in old(containerInitExit))
    {
      hide RecordAll, Stash, Handles;
      Notify(e);
      cps := Lookup(running, e.pid);
      StashInits(cps, e);
      running := running - {e.pid};
    }

    method Notify(e: Exit)
      modifies `exitSubscribers
      ensures exitSubscribers == RecordAll(old(exitSubscribers), e)
      ensures exitSubscribers.Keys == old(exitSubscribers).Keys
      ensures forall h :: h in exitSubscribers ==> e.pid in exitSubscribers[h] && e in exitSubscribers[h][e.pid]
    {
      hide Record;
      ghost var subs := exitSubscribers;
      var todo := exitSubscribers.Keys;
      while todo != {}
        invariant todo <= subs.Keys && exitSubscribers.Keys == subs.Keys
        invariant forall h :: h in subs ==>
          exitSubscribers[h] == if h in todo then subs[h] else Record(subs[h], e)
        decreases |todo|
      {
        var h :| h in todo;
        exitSubscribers := exitSubscribers[h := Record(exitSubscribers[h], e)];
        todo := todo - {h};
      }
      forall h | h in exitSubscribers ensures e.pid in exitSubscribers[h] && e in exitSubscribers[h][e.pid] {
        RecordHas(subs[h], e);
      }
    }

    method StashInits(cps: seq<Process>, e: Exit)
      modifies `containerInitExit
      ensures containerInitExit == Stash(old(containerInitExit), cps, e)
      ensures forall c :: Init(c) in cps ==> c in containerInitExit && containerInitExit[c] == e
      ensures forall c :: Init(c) !in cps ==> (c in containerInitExit <==> c in old(containerInitExit))
    {
      for i := 0 to |cps|
        invariant Stash(containerInitExit, cps[i..], e) == Stash(old(containerInitExit), cps, e)
      {
        assert cps[i..][1..] == cps[i + 1..];
        if cps[i].Init? {
          containerInitExit := containerInitExit[cps[i].c := e];
        }
      }
      forall c
        ensures Init(c) in cps ==> c in containerInitExit && containerInitExit[c] == e
        ensures Init(c) !in cps ==> (c in containerInitExit <==> c in old(containerInitExit))
      {
        StashExactly(old(containerInitExit), cps, e, c);
      }
    }

    /** handleInitExit: publish at once when no exec is counted, else subscribe to the count. */
    method HandleInitExit(p: Process, e: Exit, ghost s: State) returns (now: bool)
      requires Agrees(s)
      modifies `runningExecs, `execCountSubscribers
      ensures Agrees(Perform(s, InitExit(p, e)))
      ensures Then(InitExit(p, e), Count(s.runningExecs, p.c), Chan(s.execCount, p.c))
           == multiset{if now then Publish(p, e) else Wait(p, e)}
      ensures now <==> old(Count(runningExecs, p.c)) == 0
      ensures now ==> p.c !in runningExecs && execCountSubscribers == old(execCountSubscribers)
      ensures !now && Count(runningExecs, p.c) > 0 ==>
        p.c in execCountSubscribers && execCountSubscribers[p.c] == Channel(Count(runningExecs, p.c), [], 0)
    {
      var n := Count(runningExecs, p.c);
      now := n == 0;
      if now {
        runningExecs := runningExecs - {p.c};
      } else {
        execCountSubscribers := execCountSubscribers[p.c := Channel(if n < 0 then 0 else n, [], 0)];
      }
    }

    /** The end of handleProcessExit for an exec: uncount it and tell the waiter. */
    method Uncount(p: Process, ghost s: State)
      requires Agrees(s)
      modifies `runningExecs, `execCountSubscribers
      ensures Agrees(Uncounted(s, p))
      ensures Count(runningExecs, p.c) == old(Count(runningExecs, p.c)) - 1
      ensures p.c in old(execCountSubscribers) ==>
        && p.c in execCountSubscribers
        && execCountSubscribers[p.c].sent == old(execCountSubscribers)[p.c].sent + [Count(runningExecs, p.c)]
    {
      var n := Count(runningExecs, p.c) - 1;
      runningExecs := runningExecs[p.c := n];
      Tell(p.c, n);
    }

    method Tell(c: Container, n: int)
      modifies `execCountSubscribers
      ensures execCountSubscribers == Send(old(execCountSubscribers), c, n)
    {
      if c in execCountSubscribers {
        var ch := execCountSubscribers[c];
        execCountSubscribers := execCountSubscribers[c := ch.(sent := ch.sent + [n])];
      }
    }

    /** What the waiter of handleInitExit does on its way out. */
    method Forget(c: Container, ghost s: State)
      requires Agrees(s)
      modifies `runningExecs, `execCountSubscribers
      ensures Agrees(Perform(s, Cleanup(c)))
      ensures c !in execCountSubscribers && c !in runningExecs
    {
      execCountSubscribers := execCountSubscribers - {c};
      runningExecs := runningExecs - {c};
    }

    /** Delete of an init drops its recorded exit. */
    method Delete(c: Container, ghost s: State)
      requires Agrees(s)
      modifies `containerInitExit
      ensures Agrees(Deleted(s, c))
      ensures containerInitExit == old(containerInitExit) - {c}
    {
      containerInitExit := containerInitExit - {c};
    }
  }

  /** The loop of preStart. */
  method WithoutContainer(cps: seq<Process>, c: Container) returns (rest: seq<Process>)
    ensures rest == Others(cps, c)
    ensures forall p: Process :: multiset(rest)[p] == if p.c == c then 0 else multiset(cps)[p]
  {
    rest := [];
    for i := 0 to |cps|
      invariant rest + Others(cps[i..], c) == Others(cps, c)
    {
      assert cps[i..][1..] == cps[i + 1..];
      if cps[i].c != c {
        assert rest + ([cps[i]] + Others(cps[i + 1..], c)) == rest + [cps[i]] + Others(cps[i + 1..], c);
        rest := rest + [cps[i]];
      }
    }
    OthersExactly(cps, c);
  }

  // ---------------------------------------------------------------- lists of processes

  /** A PID may stand for several processes. The others of a container are kept with their
      order and multiplicity. */
  lemma {:induction false} OthersExactly(ps: seq<Process>, c: Container)
    ensures forall p: Process :: multiset(Others(ps, c))[p] == if p.c == c then 0 else multiset(ps)[p]
  {
    if ps != [] {
      OthersExactly(ps[1..], c);
      assert ps == [ps[0]] + ps[1..];
      assert multiset(ps) == multiset{ps[0]} + multiset(ps[1..]);
      if ps[0].c != c {
        assert multiset(Others(ps, c)) == multiset{ps[0]} + multiset(Others(ps[1..], c));
      }
    }
  }

  lemma Regroup(a: seq<Process>, b: seq<Process>, c: seq<Process>)
    ensures a + (b + c) == (a + b) + c
  {}

  lemma {:induction false} OthersInOrder(ps: seq<Process>, qs: seq<Process>, c: Container)
    ensures Others(ps + qs, c) == Others(ps, c) + Others(qs, c)
  {
    if ps == [] {
      assert ps + qs == qs;
    } else {
      OthersInOrder(ps[1..], qs, c);
      assert (ps + qs)[1..] == ps[1..] + qs && (ps + qs)[0] == ps[0];
      Regroup([ps[0]], Others(ps[1..], c), Others(qs, c));
    }
  }

  /** Every process of a PID is handled, an init as an init and an exec as an exec. */
  lemma {:induction false} HandlesExactly(cps: seq<Process>, e: Exit, p: Process)
    ensures Handles(cps, e)[if p.Init? then InitExit(p, e) else Publish(p, e)] == multiset(cps)[p]
    ensures |Handles(cps, e)| == |cps|
  {
    if cps != [] {
      HandlesExactly(cps[1..], e, p);
      assert cps == [cps[0]] + cps[1..];
      assert multiset(cps) == multiset{cps[0]} + multiset(cps[1..]);
    }
  }

  /** The exit is recorded for exactly the containers whose init is among the processes. */
  lemma {:induction false} StashExactly(initExit: map<Container, Exit>, cps: seq<Process>, e: Exit, c: Container)
    ensures Init(c) in cps ==> c in Stash(initExit, cps, e) && Stash(initExit, cps, e)[c] == e
    ensures Init(c) !in cps ==> (c in Stash(initExit, cps, e) <==> c in initExit)
    ensures Init(c) !in cps && c in initExit ==> Stash(initExit, cps, e)[c] == initExit[c]
    decreases cps
  {
    if cps != [] {
      var m := if cps[0].Init? then initExit[cps[0].c := e] else initExit;
      StashExactly(m, cps[1..], e, c);
      if Init(c) !in cps[1..] && cps[0] == Init(c) { StashKeeps(m, cps[1..], e, c); }
    }
  }

  lemma {:induction false} StashKeeps(initExit: map<Container, Exit>, cps: seq<Process>, e: Exit, c: Container)
    requires c in initExit && initExit[c] == e
    ensures c in Stash(initExit, cps, e) && Stash(initExit, cps, e)[c] == e
    decreases cps
  {
    if cps != [] {
      StashKeeps(if cps[0].Init? then initExit[cps[0].c := e] else initExit, cps[1..], e, c);
    }
  }

  /** Every exit noted during a handshake is published for its process. */
  lemma {:induction false} PublishesExactly(p: Process, es: seq<Exit>, e: Exit)
    ensures Publishes(p, es)[Publish(p, e)] == multiset(es)[e] && |Publishes(p, es)| == |es|
  {
    if es != [] {
      PublishesExactly(p, es[1..], e);
      assert es == [es[0]] + es[1..];
      assert multiset(es) == multiset{es[0]} + multiset(es[1..]);
    }
  }

  lemma RecordHas(exits: map<Pid, seq<Exit>>, e: Exit)
    ensures e.pid in Record(exits, e) && e in Record(exits, e)[e.pid]
  {}

  lemma PublishesNone(p: Process)
    ensures Publishes(p, []) == multiset{}
  {}
}
