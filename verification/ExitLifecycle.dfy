/** How the shim's task service (shim/task/service.go) turns the exits of reaped processes into
    TaskExit events. Every critical section under `lifecycleMu` is one step of a state
    machine, and so is every event sent between two of them; threads are the pending
    tasks and the start handshakes in flight, and they may interleave in any way. */
module ExitLifecycle {
  type Pid = nat
  type Container = nat
  type Handle = nat

  datatype Process = Init(c: Container) | Exec(c: Container, id: nat)
  datatype Exit = Exit(pid: Pid, status: int)
  datatype Event = TaskExit(p: Process, e: Exit)

  /** A buffered channel: every value sent so far, and how many were received. */
  datatype Channel = Channel(cap: nat, sent: seq<int>, received: nat)

  /** What a thread still has to do. */
  datatype Task =
    | Publish(p: Process, e: Exit)      // handleProcessExit
    | Uncount(p: Process)               // the second half of handleProcessExit, for an exec
    | InitExit(p: Process, e: Exit)     // handleInitExit
    | Wait(p: Process, e: Exit)         // its goroutine, waiting for the exec count
    | PublishLast(p: Process, e: Exit)  // its goroutine, about to publish
    | Cleanup(c: Container)             // its goroutine, about to return

  /** A Create or Start between preStart and handleStarted. */
  datatype Flight = Flight(p: Process, failed: bool)

  type Subscribers = map<Handle, map<Pid, seq<Exit>>>
  type Running = map<Pid, seq<Process>>

  datatype State = State(
    subs: Subscribers,
    running: Running,
    runningExecs: map<Container, int>,
    execCount: map<Container, Channel>,
    initExit: map<Container, Exit>,
    // threads and their output
    flights: Flights,
    tasks: multiset<Task>,
    events: seq<Event>,
    // the operating system, and history
    pids: map<Process, Pid>,
    reaped: map<Pid, Exit>,
    live: set<Process>,
    taken: set<Container>,
    deleted: set<Container>
  )

  function Start(): State {
    State(map[], map[], map[], map[], map[], map[], multiset{}, [], map[], map[], {}, {}, {})
  }

  // ---------------------------------------------------------------- the critical sections

  function Others(ps: seq<Process>, c: Container): seq<Process> {
    if ps == [] then []
    else if ps[0].c != c then [ps[0]] + Others(ps[1..], c) else Others(ps[1..], c)
  }

  /** preStart takes an already created init out of `running`. */
  function Remove(running: Running, pid: Pid, c: Container): Running {
    if pid !in running then running
    else if Others(running[pid], c) == [] then running - {pid}
    else running[pid := Others(running[pid], c)]
  }

  function Lookup(running: Running, pid: Pid): seq<Process> {
    if pid in running then running[pid] else []
  }

  function Record(exits: map<Pid, seq<Exit>>, e: Exit): map<Pid, seq<Exit>> {
    exits[e.pid := (if e.pid in exits then exits[e.pid] else []) + [e]]
  }

  function RecordAll(subs: Subscribers, e: Exit): Subscribers {
    map h | h in subs :: Record(subs[h], e)
  }

  function Stash(initExit: map<Container, Exit>, cps: seq<Process>, e: Exit): map<Container, Exit>
    decreases cps
  {
    if cps == [] then initExit
    else Stash(if cps[0].Init? then initExit[cps[0].c := e] else initExit, cps[1..], e)
  }

  function Count(m: map<Container, int>, c: Container): int {
    if c in m then m[c] else 0
  }

  /** The new exec count goes to the waiter of the container, if there is one. */
  function Send(chans: map<Container, Channel>, c: Container, n: int): map<Container, Channel> {
    if c in chans then chans[c := chans[c].(sent := chans[c].sent + [n])] else chans
  }

  // ---------------------------------------------------------------- the steps

  function Begin(s: State, h: Handle, p: Process): State {
    s.(subs := s.subs[h := map[]], flights := s.flights[h := Flight(p, false)])
  }

  function StartInit(s: State, h: Handle, c: Container): State
    requires Init(c) in s.pids
  {
    Begin(s.(running := Remove(s.running, s.pids[Init(c)], c)), h, Init(c))
  }

  function StartExec(s: State, h: Handle, p: Process): State {
    Begin(s.(runningExecs := s.runningExecs[p.c := Count(s.runningExecs, p.c) + 1], live := s.live + {p}), h, p)
  }

  function Uncounted(s: State, p: Process): State {
    var n := Count(s.runningExecs, p.c) - 1;
    s.(runningExecs := s.runningExecs[p.c := n], execCount := Send(s.execCount, p.c, n), live := s.live - {p})
  }

  function ExecFailed(s: State, h: Handle): State
    requires h in s.flights
  {
    var p := s.flights[h].p;
    Uncounted(s.(flights := s.flights[h := Flight(p, true)]), p)
  }

  function Publishes(p: Process, es: seq<Exit>): multiset<Task> {
    if es == [] then multiset{} else multiset{Publish(p, es[0])} + Publishes(p, es[1..])
  }

  function HandleStarted(s: State, h: Handle): State
    requires h in s.flights && h in s.subs
  {
    var p := s.flights[h].p;
    var pid := if p in s.pids then s.pids[p] else 0;
    s.(subs := s.subs - {h},
       flights := s.flights - {h},
       tasks := if pid in s.subs[h] then s.tasks + Publishes(p, s.subs[h][pid]) else s.tasks,
       running := if pid == 0 || pid in s.subs[h] then s.running else s.running[pid := Lookup(s.running, pid) + [p]])
  }

  function Handles(cps: seq<Process>, e: Exit): multiset<Task> {
    if cps == [] then multiset{}
    else multiset{if cps[0].Init? then InitExit(cps[0], e) else Publish(cps[0], e)} + Handles(cps[1..], e)
  }

  function Reap(s: State, e: Exit): State {
    var cps := Lookup(s.running, e.pid);
    s.(subs := RecordAll(s.subs, e),
       initExit := Stash(s.initExit, cps, e),
       running := s.running - {e.pid},
       tasks := s.tasks + Handles(cps, e),
       reaped := s.reaped[e.pid := e],
       taken := s.taken + (set p | p in cps && p.Init? :: p.c))
  }

  /** What the thread with `t` to do has to do next, given the exec count and channel it sees. */
  function Then(t: Task, n: int, ch: Channel): multiset<Task> {
    match t
    case Publish(p, e) => if p.Init? then multiset{} else multiset{Uncount(p)}
    case Uncount(p) => multiset{}
    case InitExit(p, e) => multiset{if n == 0 then Publish(p, e) else Wait(p, e)}
    case Wait(p, e) =>
      if ch.received < |ch.sent| && ch.sent[ch.received] == 0 then multiset{PublishLast(p, e)} else multiset{t}
    case PublishLast(p, e) => multiset{Cleanup(p.c)}
    case Cleanup(c) => multiset{}
  }

  function Emits(t: Task): seq<Event> {
    if t.Publish? || t.PublishLast? then [TaskExit(t.p, t.e)] else []
  }

  function Owner(t: Task): Container {
    if t.Cleanup? then t.c else t.p.c
  }

  function CountAfter(t: Task, m: map<Container, int>): map<Container, int> {
    var c := Owner(t);
    if t.Uncount? then m[c := Count(m, c) - 1]
    else if t.Cleanup? || (t.InitExit? && Count(m, c) == 0) then m - {c}
    else m
  }

  function NoChannel(): Channel { Channel(0, [], 0) }

  function Chan(chans: map<Container, Channel>, c: Container): Channel {
    if c in chans then chans[c] else NoChannel()
  }

  function ChanAfter(t: Task, n: int, chans: map<Container, Channel>): map<Container, Channel> {
    var c := Owner(t);
    if t.Uncount? then Send(chans, c, n - 1)
    else if t.Cleanup? then chans - {c}
    else if t.InitExit? && n != 0 then chans[c := Channel(if n < 0 then 0 else n, [], 0)]
    else if t.Wait? && c in chans && chans[c].received < |chans[c].sent| then
      chans[c := chans[c].(received := chans[c].received + 1)]
    else chans
  }

  /** One step of the thread that has `t` to do. */
  function Perform(s: State, t: Task): State {
    var c := Owner(t);
    var n := Count(s.runningExecs, c);
    s.(tasks := s.tasks - multiset{t} + Then(t, n, Chan(s.execCount, c)),
       events := s.events + Emits(t),
       runningExecs := CountAfter(t, s.runningExecs),
       execCount := ChanAfter(t, n, s.execCount),
       live := if t.Uncount? then s.live - {t.p} else s.live)
  }

  function Deleted(s: State, c: Container): State {
    s.(initExit := s.initExit - {c}, deleted := s.deleted + {c})
  }

  datatype Step =
    | CreateStep(h: Handle, c: Container)
    | CreateFailedStep(h: Handle)
    | ForkStep(h: Handle, pid: Pid)
    | StartInitStep(h: Handle, c: Container)
    | StartExecStep(h: Handle, p: Process)
    | ExecFailedStep(h: Handle)
    | HandleStartedStep(h: Handle)
    | ReapStep(e: Exit)
    | TaskStep(t: Task)
    | DeleteStep(c: Container)

  type Flights = map<Handle, Flight>

  predicate Flying(f: Flights, p: Process, h: Handle) {
    h in f && f[h].p == p
  }

  /** No handshake of `p` is in flight. */
  predicate Settled(f: Flights, p: Process) {
    forall h :: h in f ==> !Flying(f, p, h)
  }

  /** The thread is about to publish the init exit of `c`: it may have marked the process as
      exited already, and from then on the container can be deleted. */
  predicate Ends(t: Task, c: Container) {
    (t.Publish? || t.PublishLast?) && t.p == Init(c)
  }

  /** When a step may be taken. PIDs are not reused, an exec whose start fails has none, no
      exec can be forked into a deleted container, and no two handshakes of one process
      overlap. */
  predicate Enabled(s: State, step: Step) {
    match step
    case CreateStep(h, c) => h !in s.subs && h !in s.flights && Init(c) !in s.pids && Settled(s.flights, Init(c))
    case CreateFailedStep(h) => h in s.flights && s.flights[h].p.Init? && s.flights[h].p !in s.pids
    case ForkStep(h, pid) =>
      && h in s.flights && !s.flights[h].failed && s.flights[h].p !in s.pids
      && pid != 0 && pid !in s.pids.Values && pid !in s.reaped
      && (s.flights[h].p.Exec? ==> s.flights[h].p.c !in s.deleted)
    case StartInitStep(h, c) => h !in s.subs && h !in s.flights && Init(c) in s.pids && Settled(s.flights, Init(c))
    case StartExecStep(h, p) =>
      h !in s.subs && h !in s.flights && p.Exec? && p !in s.pids && Settled(s.flights, p) && p.c !in s.initExit
    case ExecFailedStep(h) =>
      h in s.flights && s.flights[h].p.Exec? && s.flights[h].p !in s.pids && !s.flights[h].failed
    case HandleStartedStep(h) => h in s.flights && h in s.subs && (s.flights[h].p in s.pids || s.flights[h].failed)
    case ReapStep(e) => e.pid != 0 && e.pid !in s.reaped
    case TaskStep(t) => t in s.tasks
    case DeleteStep(c) => (exists ev :: ev in s.events && ev.p == Init(c)) || exists t :: t in s.tasks && Ends(t, c)
  }

  function Next(s: State, step: Step): State
    requires Enabled(s, step)
  {
    match step
    case CreateStep(h, c) => Begin(s, h, Init(c))
    case CreateFailedStep(h) => s.(subs := s.subs - {h}, flights := s.flights - {h})
    case ForkStep(h, pid) => s.(pids := s.pids[s.flights[h].p := pid])
    case StartInitStep(h, c) => StartInit(s, h, c)
    case StartExecStep(h, p) => StartExec(s, h, p)
    case ExecFailedStep(h) => ExecFailed(s, h)
    case HandleStartedStep(h) => HandleStarted(s, h)
    case ReapStep(e) => Reap(s, e)
    case TaskStep(t) => Perform(s, t)
    case DeleteStep(c) => Deleted(s, c)
  }

  /** A run: the states passed through, from the empty service on. */
  ghost predicate IsRun(ss: seq<State>, steps: seq<Step>) {
    && |ss| == |steps| + 1 && ss[0] == Start()
    && forall i :: 0 <= i < |steps| ==> Enabled(ss[i], steps[i]) && ss[i + 1] == Next(ss[i], steps[i])
  }
}
