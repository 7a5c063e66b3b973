/** The invariant of the exit lifecycle: where each exit is, which execs are counted, and
    what the init exit of a container waits for. It is stated per process and per
    container, and each step is shown to keep it. */
module ExitInvariant {
  import opened ExitLifecycle

  // ---------------------------------------------------------------- structure

  /** Every subscription belongs to one handshake and holds each exit reaped since once. */
  ghost predicate SubsInv(flights: Flights, subs: Subscribers, reaped: map<Pid, Exit>) {
    && flights.Keys == subs.Keys
    && (forall h, h' :: h in flights && h' in flights && flights[h].p == flights[h'].p ==> h == h')
    && 0 !in reaped && (forall q :: q in reaped ==> reaped[q].pid == q)
    && (forall h, q :: h in subs && q in subs[h] ==> q in reaped && subs[h][q] == [reaped[q]])
  }

  /** PIDs identify processes, and `running` maps a PID to its one process. */
  ghost predicate PidsInv(pids: map<Process, Pid>, running: Running) {
    && (forall p :: p in pids ==> pids[p] != 0)
    && (forall p, p' :: p in pids && p' in pids && pids[p] == pids[p'] ==> p == p')
    && (forall q :: q in running ==> |running[q]| == 1 && running[q][0] in pids && pids[running[q][0]] == q)
  }

  lemma SubsBegin(flights: Flights, subs: Subscribers, reaped: map<Pid, Exit>, h: Handle, p: Process)
    requires SubsInv(flights, subs, reaped) && h !in subs
    requires Settled(flights, p)
    ensures SubsInv(flights[h := Flight(p, false)], subs[h := map[]], reaped)
  {}

  lemma SubsEnd(flights: Flights, subs: Subscribers, reaped: map<Pid, Exit>, h: Handle)
    requires SubsInv(flights, subs, reaped)
    ensures SubsInv(flights - {h}, subs - {h}, reaped)
  {}

  lemma SubsFailed(flights: Flights, subs: Subscribers, reaped: map<Pid, Exit>, h: Handle)
    requires SubsInv(flights, subs, reaped) && h in flights
    ensures SubsInv(flights[h := Flight(flights[h].p, true)], subs, reaped)
  {}

  lemma SubsReap(flights: Flights, subs: Subscribers, reaped: map<Pid, Exit>, e: Exit)
    requires SubsInv(flights, subs, reaped) && e.pid != 0 && e.pid !in reaped
    ensures SubsInv(flights, RecordAll(subs, e), reaped[e.pid := e])
  {}

  lemma PidsRemove(pids: map<Process, Pid>, running: Running, c: Container)
    requires PidsInv(pids, running) && Init(c) in pids
    ensures PidsInv(pids, Remove(running, pids[Init(c)], c))
    ensures pids[Init(c)] !in Remove(running, pids[Init(c)], c)
    ensures forall q :: q != pids[Init(c)] ==> (q in Remove(running, pids[Init(c)], c) <==> q in running)
  {
    var q := pids[Init(c)];
    if q in running {
      assert running[q] == [Init(c)];
      assert Others([Init(c)], c) == [];
    }
  }

  lemma PidsFork(pids: map<Process, Pid>, running: Running, p: Process, pid: Pid)
    requires PidsInv(pids, running) && p !in pids && pid != 0 && pid !in pids.Values
    ensures PidsInv(pids[p := pid], running)
  {}

  lemma PidsAdd(pids: map<Process, Pid>, running: Running, p: Process)
    requires PidsInv(pids, running) && p in pids && pids[p] !in running
    ensures PidsInv(pids, running[pids[p] := Lookup(running, pids[p]) + [p]])
  {}

  // ---------------------------------------------------------------- exactly once

  /** How many of the tasks will publish the exit `e` of `p`. */
  function Pending(ts: multiset<Task>, p: Process, e: Exit): nat {
    ts[Publish(p, e)] + ts[InitExit(p, e)] + ts[Wait(p, e)] + ts[PublishLast(p, e)]
  }

  function Published(events: seq<Event>, p: Process, e: Exit): nat {
    multiset(events)[TaskExit(p, e)]
  }

  /** The exit was noted by the handshake of the process itself. */
  ghost predicate Early(f: Flights, subs: Subscribers, pids: map<Process, Pid>, p: Process) {
    exists h :: Flying(f, p, h) && p in pids && h in subs && pids[p] in subs[h]
  }

  /** The exit `e` of `p` has been reaped and is past the handshake of `p`. */
  ghost predicate Due(s: State, p: Process, e: Exit) {
    && p in s.pids && s.pids[p] in s.reaped && s.reaped[s.pids[p]] == e
    && !Early(s.flights, s.subs, s.pids, p)
  }

  ghost predicate OnceInv(s: State, p: Process, e: Exit) {
    && Pending(s.tasks, p, e) + Published(s.events, p, e) == (if Due(s, p, e) then 1 else 0)
    && (p in s.pids ==>
          && (s.pids[p] in s.running ==> Settled(s.flights, p))
          && (Settled(s.flights, p) && s.pids[p] !in s.reaped ==> s.pids[p] in s.running))
  }

  lemma PendingSwap(ts: multiset<Task>, t: Task, more: multiset<Task>, p: Process, e: Exit)
    requires t in ts
    ensures Pending(ts - multiset{t} + more, p, e)
         == Pending(ts, p, e) - Pending(multiset{t}, p, e) + Pending(more, p, e)
  {}

  lemma PublishedMore(a: seq<Event>, b: seq<Event>, p: Process, e: Exit)
    ensures Published(a + b, p, e) == Published(a, p, e) + Published(b, p, e)
  {}

  /** A step of a thread neither loses nor duplicates an exit. */
  lemma ThenConserves(t: Task, n: int, ch: Channel, p: Process, e: Exit)
    ensures Pending(Then(t, n, ch), p, e) + Published(Emits(t), p, e) == Pending(multiset{t}, p, e)
  {}

  lemma OncePerform(s: State, t: Task, p: Process, e: Exit)
    requires OnceInv(s, p, e) && t in s.tasks
    ensures OnceInv(Perform(s, t), p, e)
  {
    hide Then, Emits, CountAfter, ChanAfter, Pending, Published, Early, Settled;
    var s' := Perform(s, t);
    var n, ch := Count(s.runningExecs, Owner(t)), Chan(s.execCount, Owner(t));
    ThenConserves(t, n, ch, p, e);
    PendingSwap(s.tasks, t, Then(t, n, ch), p, e);
    PublishedMore(s.events, Emits(t), p, e);
  }

  ghost predicate Structure(s: State) {
    SubsInv(s.flights, s.subs, s.reaped) && PidsInv(s.pids, s.running)
  }

  /** OnceInv does not depend on the exec counts. */
  lemma OnceFrame(s: State, s': State, p: Process, e: Exit)
    requires OnceInv(s, p, e)
    requires s'.tasks == s.tasks && s'.events == s.events && s'.pids == s.pids && s'.reaped == s.reaped
    requires s'.flights == s.flights && s'.subs == s.subs && s'.running == s.running
    ensures OnceInv(s', p, e)
  {}

  lemma FlightsBegin(f: Flights, subs: Subscribers, pids: map<Process, Pid>, h: Handle, p0: Process, p: Process)
    requires f.Keys == subs.Keys && h !in subs
    ensures var f', subs' := f[h := Flight(p0, false)], subs[h := map[]];
            && Settled(f', p) == (Settled(f, p) && p != p0)
            && Early(f', subs', pids, p) == Early(f, subs, pids, p)
  {
    var f', subs' := f[h := Flight(p0, false)], subs[h := map[]];
    assert Flying(f', p0, h);
    assert forall k :: k != h ==> Flying(f', p, k) == Flying(f, p, k);
  }

  lemma FlightsEnd(f: Flights, subs: Subscribers, pids: map<Process, Pid>, h: Handle, p: Process)
    requires f.Keys == subs.Keys && h in f
    requires forall h' :: h' in f && f[h'].p == f[h].p ==> h' == h
    ensures Settled(f - {h}, p) == (Settled(f, p) || p == f[h].p)
    ensures Early(f - {h}, subs - {h}, pids, p) == (Early(f, subs, pids, p) && p != f[h].p)
    ensures var p0 := f[h].p; !Settled(f, p0) && Early(f, subs, pids, p0) == (p0 in pids && pids[p0] in subs[h])
  {
    assert Flying(f, f[h].p, h);
    assert forall k :: k != h ==> Flying(f - {h}, p, k) == Flying(f, p, k);
  }

  /** A handshake of `p0` starts, with `p0` taken out of `running` first. */
  lemma OnceBegin(s: State, r: Running, h: Handle, p0: Process, p: Process, e: Exit)
    requires Structure(s) && OnceInv(s, p, e) && h !in s.subs && Settled(s.flights, p0)
    requires p0 in s.pids ==> s.pids[p0] !in r
    requires forall q :: (p0 in s.pids && q == s.pids[p0]) || (q in r <==> q in s.running)
    ensures OnceInv(Begin(s.(running := r), h, p0), p, e)
  {
    hide Pending, Published, Early, Settled;
    FlightsBegin(s.flights, s.subs, s.pids, h, p0, p);
  }

  lemma FlightsFork(f: Flights, subs: Subscribers, reaped: map<Pid, Exit>, pids: map<Process, Pid>, p0: Process,
                    pid: Pid, p: Process)
    requires SubsInv(f, subs, reaped) && p0 !in pids && pid !in reaped
    ensures Early(f, subs, pids[p0 := pid], p) == Early(f, subs, pids, p)
  {}

  lemma OnceFork(s: State, h: Handle, pid: Pid, p: Process, e: Exit)
    requires Structure(s) && OnceInv(s, p, e) && h in s.flights && s.flights[h].p !in s.pids
    requires pid !in s.reaped && pid !in s.pids.Values
    ensures OnceInv(s.(pids := s.pids[s.flights[h].p := pid]), p, e)
  {
    hide Pending, Published, Early;
    FlightsFork(s.flights, s.subs, s.reaped, s.pids, s.flights[h].p, pid, p);
    assert Flying(s.flights, s.flights[h].p, h);
    assert pid !in s.running;
  }

  lemma OnceCreateFailed(s: State, h: Handle, p: Process, e: Exit)
    requires Structure(s) && OnceInv(s, p, e) && h in s.flights && s.flights[h].p !in s.pids
    ensures OnceInv(s.(subs := s.subs - {h}, flights := s.flights - {h}), p, e)
  {
    hide Pending, Published, Early, Settled;
    FlightsEnd(s.flights, s.subs, s.pids, h, p);
  }

  lemma OnceExecFailed(s: State, h: Handle, p: Process, e: Exit)
    requires OnceInv(s, p, e) && h in s.flights
    ensures OnceInv(s.(flights := s.flights[h := Flight(s.flights[h].p, true)]), p, e)
  {
    hide Pending, Published, Early, Settled;
    FlightsFailed(s.flights, s.subs, s.pids, h, p);
  }

  lemma PublishesOne(p: Process, e: Exit, p': Process, e': Exit)
    ensures Pending(Publishes(p, [e]), p', e') == if p == p' && e == e' then 1 else 0
  {
    assert Publishes(p, [e]) == multiset{Publish(p, e)};
  }

  lemma PendingMore(a: multiset<Task>, b: multiset<Task>, p: Process, e: Exit)
    ensures Pending(a + b, p, e) == Pending(a, p, e) + Pending(b, p, e)
  {}

  lemma OnceHandleStarted(s: State, h: Handle, p: Process, e: Exit)
    requires Structure(s) && OnceInv(s, p, e) && h in s.flights
    ensures OnceInv(HandleStarted(s, h), p, e)
  {
    hide Pending, Published, Early, Settled, Publishes, OnceInv;
    var p0 := s.flights[h].p;
    assert 0 !in s.subs[h];
    if p0 !in s.pids {
      OnceCreateFailed(s, h, p, e);
    } else if s.pids[p0] in s.subs[h] {
      OnceEarly(s, h, p, e);
    } else {
      OnceRegistered(s, h, p, e);
    }
  }

  lemma OnceEarly(s: State, h: Handle, p: Process, e: Exit)
    requires Structure(s) && OnceInv(s, p, e) && h in s.flights
    requires s.flights[h].p in s.pids && s.pids[s.flights[h].p] in s.subs[h]
    ensures OnceInv(HandleStarted(s, h), p, e)
  {
    hide Pending, Published, Early, Settled, Publishes;
    FlightsEnd(s.flights, s.subs, s.pids, h, p);
    var p0 := s.flights[h].p;
    var q := s.pids[p0];
    assert s.subs[h][q] == [s.reaped[q]];
    PublishesOne(p0, s.reaped[q], p, e);
    PendingMore(s.tasks, Publishes(p0, [s.reaped[q]]), p, e);
  }

  lemma OnceRegistered(s: State, h: Handle, p: Process, e: Exit)
    requires Structure(s) && OnceInv(s, p, e) && h in s.flights
    requires s.flights[h].p in s.pids && s.pids[s.flights[h].p] !in s.subs[h]
    ensures OnceInv(HandleStarted(s, h), p, e)
  {
    hide Pending, Published, Early, Settled, Publishes;
    FlightsEnd(s.flights, s.subs, s.pids, h, p);
  }

  lemma FlightsReap(f: Flights, subs: Subscribers, reaped: map<Pid, Exit>, pids: map<Process, Pid>, e: Exit, p: Process)
    requires SubsInv(f, subs, reaped) && e.pid !in reaped
    ensures Early(f, RecordAll(subs, e), pids, p) ==
      (Early(f, subs, pids, p) || (p in pids && pids[p] == e.pid && !Settled(f, p)))
    ensures p in pids && pids[p] !in reaped ==> !Early(f, subs, pids, p)
  {
    hide RecordAll, Early, Settled;
    if p in pids && pids[p] !in reaped { NotReapedNotEarly(f, subs, reaped, pids, p); }
    EarlyRecorded(f, subs, pids, e, p);
  }

  lemma NotReapedNotEarly(f: Flights, subs: Subscribers, reaped: map<Pid, Exit>, pids: map<Process, Pid>, p: Process)
    requires SubsInv(f, subs, reaped) && p in pids && pids[p] !in reaped
    ensures !Early(f, subs, pids, p)
  {}

  lemma EarlyRecorded(f: Flights, subs: Subscribers, pids: map<Process, Pid>, e: Exit, p: Process)
    requires f.Keys == subs.Keys
    ensures Early(f, RecordAll(subs, e), pids, p) ==
      (Early(f, subs, pids, p) || (p in pids && pids[p] == e.pid && !Settled(f, p)))
  {
    hide RecordAll;
    var subs' := RecordAll(subs, e);
    RecordKeys(subs, e);
    if p in pids && pids[p] == e.pid && !Settled(f, p) {
      var h :| h in f && Flying(f, p, h);
      assert pids[p] in subs'[h];
    } else if Early(f, subs, pids, p) {
      var h :| Flying(f, p, h) && h in subs && pids[p] in subs[h];
      assert pids[p] in subs'[h];
    }
  }

  lemma RecordKeys(subs: Subscribers, e: Exit)
    ensures RecordAll(subs, e).Keys == subs.Keys
    ensures forall h, q :: h in subs ==> (q in RecordAll(subs, e)[h] <==> q in subs[h] || q == e.pid)
  {}

  lemma HandlesOne(p: Process, e: Exit, p': Process, e': Exit)
    ensures Pending(Handles([p], e), p', e') == if p == p' && e == e' then 1 else 0
  {
    assert Handles([p], e) == multiset{if p.Init? then InitExit(p, e) else Publish(p, e)};
  }

  lemma OnceReap(s: State, e0: Exit, p: Process, e: Exit)
    requires Structure(s) && OnceInv(s, p, e) && e0.pid != 0 && e0.pid !in s.reaped
    ensures OnceInv(Reap(s, e0), p, e)
  {
    hide Pending, Published, Early, Settled, Handles, Stash, SubsInv, PidsInv, RecordAll;
    FlightsReap(s.flights, s.subs, s.reaped, s.pids, e0, p);
    var cps := Lookup(s.running, e0.pid);
    PendingMore(s.tasks, Handles(cps, e0), p, e);
    if e0.pid in s.running {
      OnlyOneRuns(s.pids, s.running, e0.pid, p);
      HandlesOne(cps[0], e0, p, e);
    } else {
      HandlesNone(e0, p, e);
    }
  }

  lemma OnlyOneRuns(pids: map<Process, Pid>, running: Running, q: Pid, p: Process)
    requires PidsInv(pids, running) && q in running
    ensures running[q] == [running[q][0]] && (p == running[q][0] <==> p in pids && pids[p] == q)
  {}

  lemma HandlesNone(e: Exit, p': Process, e': Exit)
    ensures Pending(Handles([], e), p', e') == 0
  {}

  // ---------------------------------------------------------------- counted execs

  predicate Emitted(events: seq<Event>, p: Process) {
    exists ev :: ev in events && ev.p == p
  }

  /** `live` holds exactly the execs that Start has counted and nobody has uncounted yet. */
  ghost predicate ExecInv(s: State, p: Process) {
    && (p in s.live ==> p.Exec? && (p in s.pids || exists h :: Flying(s.flights, p, h) && !s.flights[h].failed))
    && (forall h :: Flying(s.flights, p, h) && p.Exec? ==> (s.flights[h].failed <==> p !in s.live))
    && (forall h :: Flying(s.flights, p, h) && s.flights[h].failed ==> p !in s.pids)
    && (forall h :: Flying(s.flights, p, h) && p.Exec? && p in s.pids && s.pids[p] in s.reaped ==>
          h in s.subs && s.pids[p] in s.subs[h])
    && (p.Exec? && p in s.pids && !Emitted(s.events, p) ==> p in s.live)
    && s.tasks[Uncount(p)] <= 1
    && (Uncount(p) in s.tasks ==> p in s.live && p in s.pids && Settled(s.flights, p) && Emitted(s.events, p))
  }

  lemma ExecFrame(s: State, s': State, p: Process)
    requires ExecInv(s, p)
    requires s'.events == s.events && s'.pids == s.pids && s'.reaped == s.reaped
    requires s'.flights == s.flights && s'.subs == s.subs
    requires (p in s'.live <==> p in s.live) && s'.tasks[Uncount(p)] == s.tasks[Uncount(p)]
    ensures ExecInv(s', p)
  {}

  lemma ExecBegin(s: State, h: Handle, p0: Process, p: Process)
    requires ExecInv(s, p) && h !in s.flights && Settled(s.flights, p0) && (p0.Exec? ==> p0 !in s.pids)
    ensures ExecInv(Begin(s.(live := if p0.Exec? then s.live + {p0} else s.live), h, p0), p)
  {
    var s' := Begin(s.(live := if p0.Exec? then s.live + {p0} else s.live), h, p0);
    assert forall k :: k != h ==> Flying(s'.flights, p, k) == Flying(s.flights, p, k);
    if p == p0 {
      hide Emitted;
      assert Flying(s'.flights, p0, h);
    } else {
      hide ExecInv, Settled;
      ExecFlights(s, s', p);
    }
  }

  /** ExecInv depends only on the handshakes of the process itself. */
  lemma ExecFlights(s: State, s': State, p: Process)
    requires ExecInv(s, p)
    requires s'.events == s.events && s'.pids == s.pids && s'.reaped == s.reaped && s'.tasks == s.tasks
    requires p in s'.live <==> p in s.live
    requires forall k :: Flying(s'.flights, p, k) <==> Flying(s.flights, p, k)
    requires forall k :: Flying(s.flights, p, k) ==>
      && k in s'.flights && s'.flights[k] == s.flights[k] && (k in s'.subs <==> k in s.subs)
      && (k in s.subs ==> s'.subs[k] == s.subs[k])
    ensures ExecInv(s', p)
  {
    hide Emitted;
  }

  lemma ExecFork(s: State, h: Handle, pid: Pid, p: Process)
    requires ExecInv(s, p) && h in s.flights && !s.flights[h].failed && pid !in s.reaped
    requires SubsInv(s.flights, s.subs, s.reaped)
    ensures ExecInv(s.(pids := s.pids[s.flights[h].p := pid]), p)
  {
    assert Flying(s.flights, s.flights[h].p, h);
  }

  lemma ExecEnd(s: State, h: Handle, p: Process)
    requires ExecInv(s, p) && SubsInv(s.flights, s.subs, s.reaped) && h in s.flights
    requires s.flights[h].p.Init? || s.flights[h].p in s.pids || s.flights[h].failed
    ensures ExecInv(s.(subs := s.subs - {h}, flights := s.flights - {h}), p)
  {
    assert Flying(s.flights, s.flights[h].p, h);
    assert forall k :: k != h ==> Flying(s.flights - {h}, p, k) == Flying(s.flights, p, k);
  }

  lemma ExecExecFailed(s: State, h: Handle, p: Process)
    requires ExecInv(s, p) && SubsInv(s.flights, s.subs, s.reaped) && h in s.flights
    requires s.flights[h].p.Exec? && s.flights[h].p !in s.pids
    ensures ExecInv(ExecFailed(s, h), p)
  {
    hide Emitted, Settled, Send, Count, SubsInv;
    var p0, s' := s.flights[h].p, ExecFailed(s, h);
    assert forall k :: Flying(s'.flights, p, k) == Flying(s.flights, p, k);
    if p == p0 {
      assert Flying(s.flights, p0, h);
      FlightsFailed(s.flights, s.subs, s.pids, h, p);
      OnlyFlight(s.flights, s.subs, s.reaped, h);
    } else {
      hide ExecInv;
      ExecFlights(s, s', p);
    }
  }

  lemma OnlyFlight(f: Flights, subs: Subscribers, reaped: map<Pid, Exit>, h: Handle)
    requires SubsInv(f, subs, reaped) && h in f
    ensures forall k :: Flying(f, f[h].p, k) ==> k == h
  {}

  lemma NoUncounts(p: Process, es: seq<Exit>, cps: seq<Process>, e: Exit, p': Process)
    ensures Publishes(p, es)[Uncount(p')] == 0 && Handles(cps, e)[Uncount(p')] == 0
    decreases |es| + |cps|
  {
    if es != [] { NoUncounts(p, es[1..], cps, e, p'); }
    if cps != [] { NoUncounts(p, es, cps[1..], e, p'); }
  }

  lemma ExecReap(s: State, e: Exit, p: Process)
    requires ExecInv(s, p) && SubsInv(s.flights, s.subs, s.reaped)
    ensures ExecInv(Reap(s, e), p)
  {
    hide RecordAll, Stash, Handles;
    RecordKeys(s.subs, e);
    NoUncounts(p, [], Lookup(s.running, e.pid), e, p);
  }

  lemma NotEmitted(s: State, p: Process, e: Exit)
    requires forall e' :: OnceInv(s, p, e')
    requires Pending(s.tasks, p, e) > 0
    ensures !Emitted(s.events, p) && Due(s, p, e)
  {
    assert OnceInv(s, p, e);
    forall ev | ev in s.events
      ensures ev.p != p
    {
      assert OnceInv(s, p, ev.e) && ev == TaskExit(ev.p, ev.e);
    }
  }

  lemma ExecPublish(s: State, p0: Process, e: Exit, p: Process)
    requires Publish(p0, e) in s.tasks && SubsInv(s.flights, s.subs, s.reaped)
    requires ExecInv(s, p) && forall e' :: OnceInv(s, p0, e')
    ensures ExecInv(Perform(s, Publish(p0, e)), p)
  {
    hide OnceInv, CountAfter, ChanAfter, Emitted;
    NotEmitted(s, p0, e);
    EmittedMore(s.events, [TaskExit(p0, e)], p);
    EmittedOne(TaskExit(p0, e), p);
  }

  lemma ExecUncount(s: State, p0: Process, p: Process)
    requires Uncount(p0) in s.tasks && ExecInv(s, p)
    ensures ExecInv(Perform(s, Uncount(p0)), p)
  {
    hide CountAfter, ChanAfter;
  }

  lemma ExecOther(s: State, t: Task, p: Process)
    requires t in s.tasks && !t.Publish? && !t.Uncount? && ExecInv(s, p)
    requires t.PublishLast? ==> t.p.Init?
    ensures ExecInv(Perform(s, t), p)
  {
    hide CountAfter, ChanAfter, Emitted, Settled;
    if t.PublishLast? {
      EmittedMore(s.events, [TaskExit(t.p, t.e)], p);
      EmittedOne(TaskExit(t.p, t.e), p);
    } else {
      assert s.events + [] == s.events;
    }
  }

  // ---------------------------------------------------------------- exec counts and the init exit

  function LiveOf(live: set<Process>, c: Container): set<Process> {
    set p | p in live && p.c == c
  }

  /** A channel created for `n0` execs when `n` of them are still live: it holds the counts
      after each exit so far, so it never holds more than it has room for, and ends in 0. */
  ghost predicate ChanOk(ch: Channel, n: nat) {
    && |ch.sent| + n == ch.cap && ch.received <= |ch.sent|
    && (forall i :: 0 <= i < |ch.sent| ==> ch.sent[i] == ch.cap - 1 - i)
  }

  ghost predicate CountInv(s: State, c: Container) {
    c !in s.deleted ==>
      && Count(s.runningExecs, c) == |LiveOf(s.live, c)|
      && (c in s.execCount ==> ChanOk(s.execCount[c], |LiveOf(s.live, c)|))
  }

  /** What is known once the init exit of `c` has been taken from `running`. */
  ghost predicate TakenInv(s: State, c: Container) {
    && (c in s.initExit ==> c in s.taken)
    && (c in s.execCount ==> c in s.taken)
    && (c in s.taken ==> c in s.initExit || c in s.deleted)
    && (c in s.taken && c in s.deleted ==> forall p :: p in LiveOf(s.live, c) ==> p !in s.pids)
    && (c in s.taken && c !in s.deleted && Emitted(s.events, Init(c)) ==> LiveOf(s.live, c) == {})
    && (Cleanup(c) in s.tasks ==> c in s.taken && Emitted(s.events, Init(c)))
  }

  ghost predicate DueInv(s: State, c: Container) {
    c in s.taken || c in s.deleted ==>
      Init(c) in s.pids && s.pids[Init(c)] in s.reaped && !Early(s.flights, s.subs, s.pids, Init(c))
  }

  ghost predicate TaskInv(s: State, c: Container, e: Exit) {
    var p := Init(c);
    && (InitExit(p, e) in s.tasks ==> c in s.taken && c !in s.deleted)
    && (Publish(p, e) in s.tasks && c in s.taken && c !in s.deleted ==> LiveOf(s.live, c) == {})
    && (PublishLast(p, e) in s.tasks ==> c in s.taken && (c !in s.deleted ==> LiveOf(s.live, c) == {}))
    && (Wait(p, e) in s.tasks ==>
          c in s.taken && c !in s.deleted && c in s.execCount && s.execCount[c].received < s.execCount[c].cap)
  }

  /** Only init exits are handled by handleInitExit. */
  ghost predicate KindInv(tasks: multiset<Task>) {
    forall t :: t in tasks ==> if t.InitExit? || t.Wait? || t.PublishLast? then t.p.Init? else t.Uncount? ==> t.p.Exec?
  }

  lemma LiveAdd(live: set<Process>, p: Process, c: Container)
    ensures LiveOf(live + {p}, c) == if p.c == c then LiveOf(live, c) + {p} else LiveOf(live, c)
    ensures LiveOf(live - {p}, c) == if p.c == c then LiveOf(live, c) - {p} else LiveOf(live, c)
  {}

  lemma CountStartExec(s: State, h: Handle, p0: Process, c: Container)
    requires CountInv(s, c) && TakenInv(s, c) && p0 !in s.live && p0.c !in s.initExit
    ensures CountInv(StartExec(s, h, p0), c)
  {
    hide LiveOf;
    LiveAdd(s.live, p0, c);
    assert p0 !in LiveOf(s.live, c) by { LiveIn(s.live, p0, c); }
  }

  lemma LiveIn(live: set<Process>, p: Process, c: Container)
    ensures p in LiveOf(live, c) <==> p in live && p.c == c
  {}

  lemma CountUncounted(s: State, p0: Process, c: Container)
    requires CountInv(s, c) && p0 in s.live
    ensures CountInv(Uncounted(s, p0), c)
  {
    hide LiveOf;
    LiveAdd(s.live, p0, c);
    LiveIn(s.live, p0, c);
  }

  ghost predicate ContInv(s: State, c: Container, e: Exit) {
    CountInv(s, c) && TakenInv(s, c) && DueInv(s, c) && TaskInv(s, c, e)
  }

  ghost predicate SameCounts(s: State, s': State) {
    && s'.runningExecs == s.runningExecs && s'.execCount == s.execCount && s'.initExit == s.initExit
    && s'.live == s.live && s'.taken == s.taken && s'.deleted == s.deleted && s'.events == s.events
  }

  /** A step that touches only handshakes and `running`. */
  lemma ContFrame(s: State, s': State, c: Container, e: Exit)
    requires ContInv(s, c, e) && SameCounts(s, s') && s'.tasks == s.tasks && s'.pids == s.pids && s'.reaped == s.reaped
    requires Early(s'.flights, s'.subs, s'.pids, Init(c)) ==> Early(s.flights, s.subs, s.pids, Init(c))
    ensures ContInv(s', c, e)
  {
    hide Early, LiveOf, Emitted;
  }

  lemma ContFork(s: State, h: Handle, pid: Pid, c: Container, e: Exit)
    requires ContInv(s, c, e) && Structure(s) && h in s.flights && s.flights[h].p !in s.pids && pid !in s.reaped
    requires s.flights[h].p.Exec? ==> s.flights[h].p.c !in s.deleted
    requires forall p :: p in s.live ==> p.Exec?
    ensures ContInv(s.(pids := s.pids[s.flights[h].p := pid]), c, e)
  {
    hide Early, Emitted;
    FlightsFork(s.flights, s.subs, s.reaped, s.pids, s.flights[h].p, pid, Init(c));
  }

  lemma ContStartExec(s: State, h: Handle, p0: Process, c: Container, e: Exit)
    requires ContInv(s, c, e) && s.flights.Keys == s.subs.Keys && h !in s.subs
    requires p0.Exec? && p0 !in s.live && p0 !in s.pids && p0.c !in s.initExit
    requires Pending(s.tasks, Init(c), e) > 0 ==> !Emitted(s.events, Init(c))
    ensures ContInv(StartExec(s, h, p0), c, e)
  {
    CountStartExec(s, h, p0, c);
    hide Early, Emitted, LiveOf, CountInv;
    FlightsBegin(s.flights, s.subs, s.pids, h, p0, Init(c));
    LiveAdd(s.live, p0, c);
  }

  lemma ContUncounted(s: State, p0: Process, c: Container, e: Exit)
    requires ContInv(s, c, e) && p0 in s.live
    ensures ContInv(Uncounted(s, p0), c, e)
  {
    CountUncounted(s, p0, c);
    hide Early, Emitted, LiveOf, CountInv;
    LiveAdd(s.live, p0, c);
  }

  lemma ContHandleStarted(s: State, h: Handle, c: Container, e: Exit)
    requires ContInv(s, c, e) && Structure(s) && h in s.flights
    ensures ContInv(HandleStarted(s, h), c, e)
  {
    hide Early, ContInv, Publishes, Settled, SameCounts;
    FlightsEnd(s.flights, s.subs, s.pids, h, Init(c));
    var s' := HandleStarted(s, h);
    var p0 := s.flights[h].p;
    assert 0 !in s.subs[h];
    SameCountsHandled(s, h);
    if p0 in s.pids && s.pids[p0] in s.subs[h] {
      var q := s.pids[p0];
      assert s.subs[h][q] == [s.reaped[q]];
      PublishesIs(p0, s.reaped[q]);
      ContEarly(s, s', p0, s.reaped[q], c, e);
    } else {
      ContFrame(s, s', c, e);
    }
  }

  lemma SameCountsHandled(s: State, h: Handle)
    requires h in s.flights && h in s.subs
    ensures var s' := HandleStarted(s, h); SameCounts(s, s') && s'.pids == s.pids && s'.reaped == s.reaped
  {}

  /** A handshake publishes the early exit of its process. */
  lemma ContEarly(s: State, s': State, p0: Process, e0: Exit, c: Container, e: Exit)
    requires ContInv(s, c, e) && SameCounts(s, s') && s'.pids == s.pids && s'.reaped == s.reaped
    requires s'.tasks == s.tasks + multiset{Publish(p0, e0)}
    requires Early(s'.flights, s'.subs, s'.pids, Init(c)) ==> Early(s.flights, s.subs, s.pids, Init(c))
    requires p0 == Init(c) ==> Early(s.flights, s.subs, s.pids, Init(c))
    ensures ContInv(s', c, e)
  {
    hide Early, LiveOf, Emitted, ChanOk;
  }

  lemma PublishesIs(p: Process, e: Exit)
    ensures Publishes(p, [e]) == multiset{Publish(p, e)}
  {}

  lemma ContDelete(s: State, c0: Container, c: Container, e: Exit)
    requires ContInv(s, c, e)
    requires c == c0 ==>
      && Init(c) in s.pids && s.pids[Init(c)] in s.reaped && !Early(s.flights, s.subs, s.pids, Init(c))
      && InitExit(Init(c), e) !in s.tasks && Wait(Init(c), e) !in s.tasks
      && (c in s.taken && c !in s.deleted ==> LiveOf(s.live, c) == {})
    ensures ContInv(s.(initExit := s.initExit - {c0}, deleted := s.deleted + {c0}), c, e)
  {
    hide Early, Emitted;
  }

  /** A container can be deleted only when its init exit is past its handshake and past
      waiting, so no counted exec is left. */
  lemma Deletable(s: State, c: Container, e: Exit)
    requires OnceAll(s) && ContAll(s) && Enabled(s, DeleteStep(c))
    ensures Init(c) in s.pids && s.pids[Init(c)] in s.reaped && !Early(s.flights, s.subs, s.pids, Init(c))
    ensures InitExit(Init(c), e) !in s.tasks && Wait(Init(c), e) !in s.tasks
    ensures c in s.taken && c !in s.deleted ==> LiveOf(s.live, c) == {}
  {
    hide OnceInv, ContInv, Early, LiveOf;
    var p := Init(c);
    if t :| t in s.tasks && Ends(t, c) {
      EndsToken(s.tasks, t, p, e);
      NotEmitted(s, p, t.e);
      OneToken(s, p, t.e, e);
      LastToken(s, c, t);
    } else {
      var ev :| ev in s.events && ev.p == p;
      PublishedDue(s, p, ev, e);
      QuietTasks(s.tasks, p, e);
      EmittedNoneLive(s, c, e, ev);
    }
  }

  lemma EndsToken(ts: multiset<Task>, t: Task, p: Process, e: Exit)
    requires t in ts && (t.Publish? || t.PublishLast?) && t.p == p
    ensures Pending(ts, p, t.e) > 0
    ensures Pending(ts, p, t.e) == 1 ==> InitExit(p, t.e) !in ts && Wait(p, t.e) !in ts
    ensures Pending(ts, p, e) == 0 ==> InitExit(p, e) !in ts && Wait(p, e) !in ts
  {}

  lemma LastToken(s: State, c: Container, t: Task)
    requires t in s.tasks && (t.Publish? || t.PublishLast?) && t.p == Init(c) && ContInv(s, c, t.e)
    ensures c in s.taken && c !in s.deleted ==> LiveOf(s.live, c) == {}
  {}

  lemma EmittedNoneLive(s: State, c: Container, e: Exit, ev: Event)
    requires ContInv(s, c, e) && ev in s.events && ev.p == Init(c)
    ensures c in s.taken && c !in s.deleted ==> LiveOf(s.live, c) == {}
  {}

  /** A published exit is past its handshake, and nothing is pending for its process. */
  lemma PublishedDue(s: State, p: Process, ev: Event, e: Exit)
    requires OnceInv(s, p, ev.e) && OnceInv(s, p, e) && ev in s.events && ev.p == p
    ensures Due(s, p, ev.e) && Pending(s.tasks, p, e) == 0
  {
    hide Early, Settled, Pending;
    assert ev == TaskExit(p, ev.e);
    assert Published(s.events, p, ev.e) >= 1;
  }

  /** The exit of a process that was not reaped, or whose exit is with its handshake, is
      neither pending nor published. */
  lemma Quiet(s: State, p: Process, e: Exit)
    requires forall e' :: OnceInv(s, p, e')
    requires p in s.pids && s.pids[p] in s.reaped ==> Early(s.flights, s.subs, s.pids, p)
    ensures !Emitted(s.events, p) && Pending(s.tasks, p, e) == 0
  {
    hide Early, Settled;
    assert OnceInv(s, p, e);
    forall ev | ev in s.events
      ensures ev.p != p
    {
      assert OnceInv(s, p, ev.e) && ev == TaskExit(ev.p, ev.e);
    }
  }

  lemma ReapOf(s: State, e0: Exit)
    requires PidsInv(s.pids, s.running)
    ensures var s' := Reap(s, e0);
      if e0.pid in s.running && s.running[e0.pid][0].Init? then
        var p0 := s.running[e0.pid][0];
        && s'.initExit == s.initExit[p0.c := e0] && s'.taken == s.taken + {p0.c}
        && s'.tasks == s.tasks + multiset{InitExit(p0, e0)}
      else
        && s'.initExit == s.initExit && s'.taken == s.taken
        && s'.tasks == s.tasks + if e0.pid in s.running then multiset{Publish(s.running[e0.pid][0], e0)} else multiset{}
  {
    if e0.pid in s.running {
      var p0 := s.running[e0.pid][0];
      assert Lookup(s.running, e0.pid) == [p0];
      assert Stash(s.initExit, [p0], e0) == if p0.Init? then s.initExit[p0.c := e0] else s.initExit;
      assert Handles([p0], e0) == multiset{if p0.Init? then InitExit(p0, e0) else Publish(p0, e0)};
    }
  }

  /** Nothing about `c` and its exit `e` differs, except possibly who has noted which exit. */
  ghost predicate SameFor(s: State, s': State, c: Container, e: Exit) {
    var p := Init(c);
    && Count(s'.runningExecs, c) == Count(s.runningExecs, c)
    && (c in s'.execCount <==> c in s.execCount) && (c in s.execCount ==> s'.execCount[c] == s.execCount[c])
    && (c in s'.initExit <==> c in s.initExit)
    && (c in s'.taken <==> c in s.taken) && (c in s'.deleted <==> c in s.deleted)
    && Emitted(s'.events, p) == Emitted(s.events, p) && LiveOf(s'.live, c) == LiveOf(s.live, c) && s'.pids == s.pids
    && SameTasks(s.tasks, s'.tasks, c, e)
  }

  ghost predicate SameTasks(ts: multiset<Task>, ts': multiset<Task>, c: Container, e: Exit) {
    var p := Init(c);
    && (Cleanup(c) in ts' <==> Cleanup(c) in ts)
    && (InitExit(p, e) in ts' <==> InitExit(p, e) in ts) && (Publish(p, e) in ts' <==> Publish(p, e) in ts)
    && (PublishLast(p, e) in ts' <==> PublishLast(p, e) in ts) && (Wait(p, e) in ts' <==> Wait(p, e) in ts)
  }

  lemma ContSame(s: State, s': State, c: Container, e: Exit)
    requires ContInv(s, c, e) && SameFor(s, s', c, e) && DueInv(s', c)
    ensures ContInv(s', c, e)
  {
    hide Early, LiveOf, Emitted, ChanOk, DueInv;
  }

  lemma ContTaken(s: State, s': State, c: Container, e0: Exit, e: Exit)
    requires ContInv(s, c, e) && DueInv(s', c) && !Emitted(s.events, Init(c)) && Publish(Init(c), e) !in s.tasks
    requires c !in s.deleted
    requires s'.runningExecs == s.runningExecs && s'.execCount == s.execCount && s'.initExit == s.initExit[c := e0]
    requires s'.taken == s.taken + {c} && s'.deleted == s.deleted && s'.events == s.events && s'.live == s.live
    requires s'.tasks == s.tasks + multiset{InitExit(Init(c), e0)} && s'.pids == s.pids
    ensures ContInv(s', c, e)
  {
    hide Early, LiveOf, Emitted, ChanOk, DueInv;
  }

  lemma DueReap(s: State, e0: Exit, c: Container)
    requires Structure(s) && DueInv(s, c) && e0.pid !in s.reaped && forall e' :: OnceInv(s, Init(c), e')
    ensures DueInv(Reap(s, e0), c)
  {
    hide Early, Handles, Stash, OnceInv, Settled;
    ReapOf(s, e0);
    FlightsReap(s.flights, s.subs, s.reaped, s.pids, e0, Init(c));
    if Init(c) in s.pids && s.pids[Init(c)] == e0.pid && e0.pid in s.running {
      SettledRunning(s, Init(c), e0);
    }
  }

  lemma ContReap(s: State, e0: Exit, c: Container, e: Exit)
    requires ContInv(s, c, e) && Structure(s) && e0.pid !in s.reaped && forall e' :: OnceInv(s, Init(c), e')
    ensures ContInv(Reap(s, e0), c, e)
  {
    hide ContInv, Early, Emitted, Handles, Stash, OnceInv, Settled, Pending, DueInv, RecordAll;
    assert DueInv(s, c) by { ContHasDue(s, c, e); }
    DueReap(s, e0, c);
    ReapOf(s, e0);
    if e0.pid in s.running && s.running[e0.pid][0] == Init(c) {
      Quiet(s, Init(c), e);
      QuietTasks(s.tasks, Init(c), e);
      NotDeleted(s, e0, c);
      ContTaken(s, Reap(s, e0), c, e0, e);
    } else {
      ContSame(s, Reap(s, e0), c, e);
    }
  }

  lemma NotDeleted(s: State, e0: Exit, c: Container)
    requires DueInv(s, c) && PidsInv(s.pids, s.running) && e0.pid !in s.reaped
    requires e0.pid in s.running && s.running[e0.pid][0] == Init(c)
    ensures c !in s.deleted
  {}

  lemma ContHasDue(s: State, c: Container, e: Exit)
    requires ContInv(s, c, e)
    ensures DueInv(s, c)
  {}

  lemma QuietTasks(ts: multiset<Task>, p: Process, e: Exit)
    requires Pending(ts, p, e) == 0
    ensures InitExit(p, e) !in ts && Publish(p, e) !in ts && PublishLast(p, e) !in ts && Wait(p, e) !in ts
  {}

  lemma SettledRunning(s: State, p: Process, e: Exit)
    requires OnceInv(s, p, e) && p in s.pids && s.pids[p] in s.running
    ensures Settled(s.flights, p)
  {}

  lemma EmittedMore(events: seq<Event>, more: seq<Event>, p: Process)
    ensures Emitted(events + more, p) == (Emitted(events, p) || Emitted(more, p))
  {
    if ev :| ev in events && ev.p == p { assert ev in events + more; }
    if ev :| ev in more && ev.p == p { assert ev in events + more; }
  }

  lemma EmittedOne(ev: Event, p: Process)
    ensures Emitted([ev], p) == (ev.p == p)
  {
    assert ev in [ev];
  }

  lemma DuePerform(s: State, t: Task, c: Container)
    requires DueInv(s, c)
    ensures DueInv(Perform(s, t), c)
  {
    hide Early, Then, Emits, CountAfter, ChanAfter;
  }

  lemma OtherTasks(ts: multiset<Task>, t: Task, n: int, ch: Channel, c: Container, e: Exit)
    requires Owner(t) != c
    ensures SameTasks(ts, ts - multiset{t} + Then(t, n, ch), c, e)
  {}

  lemma OtherCounts(t: Task, m: map<Container, int>, n: int, chans: map<Container, Channel>, c: Container)
    requires Owner(t) != c
    ensures Count(CountAfter(t, m), c) == Count(m, c)
    ensures c in ChanAfter(t, n, chans) <==> c in chans
    ensures c in chans ==> ChanAfter(t, n, chans)[c] == chans[c]
  {}

  lemma OtherEvents(events: seq<Event>, t: Task, p: Process)
    requires t.Cleanup? || t.p != p
    ensures Emitted(events + Emits(t), p) == Emitted(events, p)
  {
    EmittedMore(events, Emits(t), p);
  }

  lemma ContPerformOther(s: State, t: Task, c: Container, e: Exit)
    requires ContInv(s, c, e) && t in s.tasks && Owner(t) != c
    ensures ContInv(Perform(s, t), c, e)
  {
    hide ContInv, Emitted, DueInv, LiveOf, SameTasks, Then, CountAfter, ChanAfter, Emits;
    ContHasDue(s, c, e);
    DuePerform(s, t, c);
    OtherEvents(s.events, t, Init(c));
    OtherTasks(s.tasks, t, Count(s.runningExecs, Owner(t)), Chan(s.execCount, Owner(t)), c, e);
    OtherCounts(t, s.runningExecs, Count(s.runningExecs, Owner(t)), s.execCount, c);
    if t.Uncount? { LiveAdd(s.live, t.p, c); }
    ContSame(s, Perform(s, t), c, e);
  }

  lemma ContPublishExec(s: State, t: Task, c: Container, e: Exit)
    requires ContInv(s, c, e) && t in s.tasks && t.Publish? && t.p.Exec?
    ensures ContInv(Perform(s, t), c, e)
  {
    hide ContInv, Emitted, DueInv, LiveOf, CountAfter, ChanAfter;
    ContHasDue(s, c, e);
    DuePerform(s, t, c);
    OtherEvents(s.events, t, Init(c));
    PublishKeepsCounts(t, s);
    ContSame(s, Perform(s, t), c, e);
  }

  lemma PublishKeepsCounts(t: Task, s: State)
    requires t.Publish? || t.PublishLast?
    ensures CountAfter(t, s.runningExecs) == s.runningExecs
    ensures ChanAfter(t, Count(s.runningExecs, Owner(t)), s.execCount) == s.execCount
  {}

  /** The init exit is published, at once or by the waiter: no counted exec is left. */
  lemma ContPublishInit(s: State, t: Task, c: Container, e: Exit)
    requires t in s.tasks && (t.Publish? || t.PublishLast?) && t.p == Init(c)
    requires ContInv(s, c, e) && ContInv(s, c, t.e) && !Emitted(s.events, Init(c))
    ensures ContInv(Perform(s, t), c, e)
  {
    hide Emitted, DueInv, LiveOf, CountAfter, ChanAfter, ChanOk;
    DuePerform(s, t, c);
    EmittedMore(s.events, Emits(t), Init(c));
    EmittedOne(TaskExit(t.p, t.e), Init(c));
    PublishKeepsCounts(t, s);
  }

  lemma ContUncount(s: State, t: Task, c: Container, e: Exit)
    requires ContInv(s, c, e) && t in s.tasks && t.Uncount? && t.p.Exec? && t.p in s.live
    ensures ContInv(Perform(s, t), c, e)
  {
    hide ContInv, Emitted, DueInv, LiveOf;
    var s0 := s.(tasks := s.tasks - multiset{t} + multiset{});
    ContHasDue(s, c, e);
    assert DueInv(s0, c) by { DueTasks(s, s0.tasks, c); }
    ContSame(s, s0, c, e);
    ContUncounted(s0, t.p, c, e);
    assert s.events + [] == s.events;
    assert Perform(s, t) == Uncounted(s0, t.p);
  }

  lemma DueTasks(s: State, tasks: multiset<Task>, c: Container)
    requires DueInv(s, c)
    ensures DueInv(s.(tasks := tasks), c)
  {}

  /** handleInitExit: publish at once, or wait on a channel with room for every count. */
  lemma ContInitExit(s: State, t: Task, c: Container, e: Exit)
    requires t in s.tasks && t.InitExit? && t.p == Init(c)
    requires ContInv(s, c, e) && ContInv(s, c, t.e) && !Emitted(s.events, Init(c))
    ensures ContInv(Perform(s, t), c, e)
  {
    hide Emitted, DueInv, LiveOf, Emits;
    DuePerform(s, t, c);
    assert Emits(t) == [] by { NoEmits(t); }
    assert s.events + [] == s.events;
  }

  lemma NoEmits(t: Task)
    requires !t.Publish? && !t.PublishLast?
    ensures Emits(t) == []
  {}

  /** The waiter receives a count; a zero means that no counted exec is left. */
  lemma ContWait(s: State, t: Task, c: Container, e: Exit)
    requires t in s.tasks && t.Wait? && t.p == Init(c)
    requires ContInv(s, c, e) && ContInv(s, c, t.e) && !Emitted(s.events, Init(c))
    requires Pending(s.tasks, Init(c), t.e) == 1 && (e != t.e ==> Pending(s.tasks, Init(c), e) == 0)
    ensures ContInv(Perform(s, t), c, e)
  {
    hide Emitted, DueInv, LiveOf, Emits;
    DuePerform(s, t, c);
    NoEmits(t);
    assert s.events + [] == s.events;
  }

  lemma ContCleanup(s: State, c: Container, e: Exit)
    requires ContInv(s, c, e) && Cleanup(c) in s.tasks
    requires Pending(s.tasks, Init(c), e) == 0
    ensures ContInv(Perform(s, Cleanup(c)), c, e)
  {
    hide Emitted, DueInv, LiveOf, Emits;
    DuePerform(s, Cleanup(c), c);
    NoEmits(Cleanup(c));
    assert s.events + [] == s.events;
  }

  /** At most one thread is about to publish an exit of `p`. */
  lemma OneToken(s: State, p: Process, e: Exit, e': Exit)
    requires OnceInv(s, p, e) && OnceInv(s, p, e') && Pending(s.tasks, p, e) > 0
    ensures Pending(s.tasks, p, e) == 1 && (e' != e ==> Pending(s.tasks, p, e') == 0)
  {}

  // ---------------------------------------------------------------- the invariant

  ghost predicate OnceAll(s: State) { forall p, e :: OnceInv(s, p, e) }

  ghost predicate ExecAll(s: State) { forall p :: ExecInv(s, p) }

  ghost predicate ContAll(s: State) { forall c, e :: ContInv(s, c, e) }

  ghost predicate Inv(s: State) {
    Structure(s) && KindInv(s.tasks) && OnceAll(s) && ExecAll(s) && ContAll(s)
  }

  lemma StructureKept(s: State, step: Step)
    requires Structure(s) && OnceAll(s) && Enabled(s, step)
    ensures Structure(Next(s, step))
  {
    hide SubsInv, PidsInv;
    match step
    case CreateStep(h, c) => SubsBegin(s.flights, s.subs, s.reaped, h, Init(c));
    case CreateFailedStep(h) => SubsEnd(s.flights, s.subs, s.reaped, h);
    case ForkStep(h, pid) => PidsFork(s.pids, s.running, s.flights[h].p, pid);
    case StartInitStep(h, c) =>
      SubsBegin(s.flights, s.subs, s.reaped, h, Init(c));
      PidsRemove(s.pids, s.running, c);
    case StartExecStep(h, p) => SubsBegin(s.flights, s.subs, s.reaped, h, p);
    case ExecFailedStep(h) => SubsFailed(s.flights, s.subs, s.reaped, h);
    case HandleStartedStep(h) => StructureHandled(s, h);
    case ReapStep(e) =>
      SubsReap(s.flights, s.subs, s.reaped, e);
      PidsReap(s.pids, s.running, e.pid);
    case TaskStep(t) =>
    case DeleteStep(c) =>
  }

  lemma PidsReap(pids: map<Process, Pid>, running: Running, pid: Pid)
    requires PidsInv(pids, running)
    ensures PidsInv(pids, running - {pid})
  {}

  lemma StructureHandled(s: State, h: Handle)
    requires Structure(s) && OnceAll(s) && h in s.flights
    ensures Structure(HandleStarted(s, h))
  {
    hide OnceInv, Publishes;
    SubsEnd(s.flights, s.subs, s.reaped, h);
    var p := s.flights[h].p;
    if p in s.pids {
      NotRunning(s, h, Exit(0, 0));
      PidsAdd(s.pids, s.running, p);
    }
  }

  lemma NotRunning(s: State, h: Handle, e: Exit)
    requires OnceAll(s) && h in s.flights && s.flights[h].p in s.pids
    ensures s.pids[s.flights[h].p] !in s.running
  {
    assert OnceInv(s, s.flights[h].p, e);
    assert Flying(s.flights, s.flights[h].p, h);
  }

  lemma OnceKept(s: State, step: Step, p: Process, e: Exit)
    requires Structure(s) && OnceInv(s, p, e) && Enabled(s, step)
    ensures OnceInv(Next(s, step), p, e)
  {
    hide OnceInv, SubsInv, PidsInv, Perform, HandleStarted, Reap, Settled;
    match step
    case CreateStep(h, c) => OnceBegin(s, s.running, h, Init(c), p, e);
    case CreateFailedStep(h) => OnceCreateFailed(s, h, p, e);
    case ForkStep(h, pid) => OnceFork(s, h, pid, p, e);
    case StartInitStep(h, c) =>
      PidsRemove(s.pids, s.running, c);
      OnceBegin(s, Remove(s.running, s.pids[Init(c)], c), h, Init(c), p, e);
    case StartExecStep(h, p0) =>
      OnceBegin(s, s.running, h, p0, p, e);
      OnceFrame(Begin(s.(running := s.running), h, p0), StartExec(s, h, p0), p, e);
    case ExecFailedStep(h) =>
      OnceExecFailed(s, h, p, e);
      OnceFrame(s.(flights := s.flights[h := Flight(s.flights[h].p, true)]), ExecFailed(s, h), p, e);
    case HandleStartedStep(h) => OnceHandleStarted(s, h, p, e);
    case ReapStep(e0) => OnceReap(s, e0, p, e);
    case TaskStep(t) => OncePerform(s, t, p, e);
    case DeleteStep(c) => OnceFrame(s, Next(s, step), p, e);
  }

  lemma ExecKept(s: State, step: Step, p: Process)
    requires Structure(s) && KindInv(s.tasks) && OnceAll(s) && ExecInv(s, p) && Enabled(s, step)
    ensures ExecInv(Next(s, step), p)
  {
    hide ExecInv, OnceInv, SubsInv, PidsInv, Perform, Settled, RecordAll, Handles;
    match step
    case CreateStep(h, c) => ExecBegin(s, h, Init(c), p);
    case CreateFailedStep(h) => ExecEnd(s, h, p);
    case ForkStep(h, pid) => ExecFork(s, h, pid, p);
    case StartInitStep(h, c) =>
      ExecBegin(s, h, Init(c), p);
      ExecFrame(Begin(s, h, Init(c)), Next(s, step), p);
    case StartExecStep(h, p0) =>
      ExecBegin(s, h, p0, p);
      ExecFrame(Begin(s.(live := s.live + {p0}), h, p0), StartExec(s, h, p0), p);
    case ExecFailedStep(h) => ExecExecFailed(s, h, p);
    case HandleStartedStep(h) => ExecHandled(s, h, p);
    case ReapStep(e) => ExecReap(s, e, p);
    case TaskStep(t) => ExecPerform(s, t, p);
    case DeleteStep(c) => ExecFrame(s, Next(s, step), p);
  }

  lemma ExecHandled(s: State, h: Handle, p: Process)
    requires SubsInv(s.flights, s.subs, s.reaped) && ExecInv(s, p) && h in s.flights
    requires s.flights[h].p in s.pids || s.flights[h].failed
    ensures ExecInv(HandleStarted(s, h), p)
  {
    hide ExecInv, Publishes;
    var p0 := s.flights[h].p;
    ExecEnd(s, h, p);
    var q := if p0 in s.pids then s.pids[p0] else 0;
    if q in s.subs[h] { NoUncounts(p0, s.subs[h][q], [], Exit(0, 0), p); }
    ExecFrame(s.(subs := s.subs - {h}, flights := s.flights - {h}), HandleStarted(s, h), p);
  }

  lemma ExecPerform(s: State, t: Task, p: Process)
    requires SubsInv(s.flights, s.subs, s.reaped) && KindInv(s.tasks) && OnceAll(s) && ExecInv(s, p) && t in s.tasks
    ensures ExecInv(Perform(s, t), p)
  {
    hide ExecInv, OnceInv, Perform;
    if t.Publish? { ExecPublish(s, t.p, t.e, p); }
    else if t.Uncount? { ExecUncount(s, t.p, p); }
    else { ExecOther(s, t, p); }
  }

  lemma ContPerform(s: State, t: Task, c: Container, e: Exit)
    requires Inv(s) && t in s.tasks
    ensures ContInv(Perform(s, t), c, e)
  {
    hide ExecInv, OnceInv, ContInv, Perform, Pending, Emitted;
    assert ContInv(s, c, e);
    if Owner(t) != c {
      ContPerformOther(s, t, c, e);
    } else if t.Cleanup? {
      CleanupQuiet(s, c, e);
      ContCleanup(s, c, e);
    } else if t.Uncount? {
      assert t.p in s.live by { UncountLive(s, t.p); }
      ContUncount(s, t, c, e);
    } else if t.p.Exec? {
      ContPublishExec(s, t, c, e);
    } else {
      assert ContInv(s, c, t.e);
      assert Pending(s.tasks, t.p, t.e) > 0 by { TaskPending(s.tasks, t); }
      NotEmitted(s, t.p, t.e);
      OneToken(s, t.p, t.e, e);
      if t.InitExit? { ContInitExit(s, t, c, e); }
      else if t.Wait? { ContWait(s, t, c, e); }
      else { ContPublishInit(s, t, c, e); }
    }
  }

  lemma TaskPending(ts: multiset<Task>, t: Task)
    requires t in ts && !t.Uncount? && !t.Cleanup?
    ensures Pending(ts, t.p, t.e) > 0
  {}

  lemma UncountLive(s: State, p: Process)
    requires ExecInv(s, p) && Uncount(p) in s.tasks
    ensures p in s.live
  {}

  lemma CleanupQuiet(s: State, c: Container, e: Exit)
    requires OnceAll(s) && ContInv(s, c, e) && Cleanup(c) in s.tasks
    ensures Pending(s.tasks, Init(c), e) == 0
  {
    hide Pending, OnceInv, Emitted;
    if Pending(s.tasks, Init(c), e) > 0 {
      NotEmitted(s, Init(c), e);
    }
  }

  lemma ContKept(s: State, step: Step, c: Container, e: Exit)
    requires Inv(s) && Enabled(s, step)
    ensures ContInv(Next(s, step), c, e)
  {
    hide ExecInv, OnceInv, ContInv, KindInv, SubsInv, PidsInv, Perform, HandleStarted, Reap;
    hide Emitted, Early, Settled, Pending;
    assert ContInv(s, c, e);
    SameKeys(s);
    match step
    case CreateStep(h, c0) => ContBegin(s, s.running, h, c0, c, e);
    case CreateFailedStep(h) => ContCreateFailed(s, h, c, e);
    case ForkStep(h, pid) =>
      forall p | p in s.live ensures p.Exec? { LiveIsExec(s, p); }
      ContFork(s, h, pid, c, e);
    case StartInitStep(h, c0) => ContBegin(s, Remove(s.running, s.pids[Init(c0)], c0), h, c0, c, e);
    case StartExecStep(h, p0) =>
      NotLive(s, p0);
      if Pending(s.tasks, Init(c), e) > 0 { NotEmitted(s, Init(c), e); }
      ContStartExec(s, h, p0, c, e);
    case ExecFailedStep(h) => ContExecFailed(s, h, c, e);
    case HandleStartedStep(h) => ContHandleStarted(s, h, c, e);
    case ReapStep(e0) => ContReap(s, e0, c, e);
    case TaskStep(t) => ContPerform(s, t, c, e);
    case DeleteStep(c0) =>
      Deletable(s, c0, e);
      ContDelete(s, c0, c, e);
  }

  lemma SameKeys(s: State)
    requires Structure(s)
    ensures s.flights.Keys == s.subs.Keys
  {}

  lemma ContBegin(s: State, running: Running, h: Handle, c0: Container, c: Container, e: Exit)
    requires ContInv(s, c, e) && s.flights.Keys == s.subs.Keys && h !in s.subs
    ensures ContInv(Begin(s.(running := running), h, Init(c0)), c, e)
  {
    hide ContInv, Early, Settled;
    FlightsBegin(s.flights, s.subs, s.pids, h, Init(c0), Init(c));
    ContFrame(s, Begin(s.(running := running), h, Init(c0)), c, e);
  }

  lemma ContCreateFailed(s: State, h: Handle, c: Container, e: Exit)
    requires ContInv(s, c, e) && Structure(s) && h in s.flights
    ensures ContInv(s.(subs := s.subs - {h}, flights := s.flights - {h}), c, e)
  {
    hide ContInv, Early, Settled, PidsInv;
    FlightsEnd(s.flights, s.subs, s.pids, h, Init(c));
    ContFrame(s, s.(subs := s.subs - {h}, flights := s.flights - {h}), c, e);
  }

  lemma LiveIsExec(s: State, p: Process)
    requires ExecInv(s, p) && p in s.live
    ensures p.Exec?
  {}

  lemma NotLive(s: State, p: Process)
    requires ExecInv(s, p) && p !in s.pids && Settled(s.flights, p)
    ensures p !in s.live
  {}

  lemma ContExecFailed(s: State, h: Handle, c: Container, e: Exit)
    requires Inv(s) && Enabled(s, ExecFailedStep(h))
    ensures ContInv(ExecFailed(s, h), c, e)
  {
    hide OnceInv, ContInv, Early, KindInv;
    var p0 := s.flights[h].p;
    assert ContInv(s, c, e) && ExecInv(s, p0);
    assert Flying(s.flights, p0, h);
    var s0 := s.(flights := s.flights[h := Flight(p0, true)]);
    FlightsFailed(s.flights, s.subs, s.pids, h, Init(c));
    ContFrame(s, s0, c, e);
    ContUncounted(s0, p0, c, e);
  }

  lemma FlightsFailed(f: Flights, subs: Subscribers, pids: map<Process, Pid>, h: Handle, p: Process)
    requires h in f
    ensures Early(f[h := Flight(f[h].p, true)], subs, pids, p) == Early(f, subs, pids, p)
    ensures Settled(f[h := Flight(f[h].p, true)], p) == Settled(f, p)
  {
    assert forall k :: Flying(f[h := Flight(f[h].p, true)], p, k) == Flying(f, p, k);
  }

  lemma KindKept(s: State, step: Step)
    requires KindInv(s.tasks) && Enabled(s, step)
    ensures KindInv(Next(s, step).tasks)
  {
    match step
    case HandleStartedStep(h) =>
      var p := s.flights[h].p;
      var q := if p in s.pids then s.pids[p] else 0;
      if q in s.subs[h] { KindPublishes(p, s.subs[h][q]); }
    case ReapStep(e) => KindHandles(Lookup(s.running, e.pid), e);
    case TaskStep(t) => KindThen(t, Count(s.runningExecs, Owner(t)), Chan(s.execCount, Owner(t)));
    case _ =>
  }

  lemma KindPublishes(p: Process, es: seq<Exit>)
    ensures KindInv(Publishes(p, es))
  {}

  lemma KindHandles(cps: seq<Process>, e: Exit)
    ensures KindInv(Handles(cps, e))
  {}

  lemma KindThen(t: Task, n: int, ch: Channel)
    requires if t.InitExit? || t.Wait? || t.PublishLast? then t.p.Init? else t.Uncount? ==> t.p.Exec?
    ensures KindInv(Then(t, n, ch))
  {}

  lemma InvKept(s: State, step: Step)
    requires Inv(s) && Enabled(s, step)
    ensures Inv(Next(s, step))
  {
    hide SubsInv, PidsInv, KindInv, OnceInv, ExecInv, ContInv, Enabled, Next;
    StructureKept(s, step);
    KindKept(s, step);
    forall p, e ensures OnceInv(Next(s, step), p, e) { OnceKept(s, step, p, e); }
    forall p ensures ExecInv(Next(s, step), p) { ExecKept(s, step, p); }
    forall c, e ensures ContInv(Next(s, step), c, e) { ContKept(s, step, c, e); }
  }

  lemma InvStart()
    ensures Inv(Start())
  {}
}
