/** How the zeropod wrapper hides the exits that scaling down causes: the exit filter of
    shim/task/service_zeropod.go against the checkpoint, kill and restore operations of
    shim/checkpoint.go, shim/restore.go and shim/container.go, for one container. */
module ExitFilter {
  type Pid = nat

  /** Who holds the CheckpointRestore lock. `alive` says whether the process was alive when its
      PID was marked: only then can a checkpoint of it succeed, or a kill be what ends it. */
  datatype Lock = Free | Checkpointing(alive: bool) | Killing(alive: bool) | Restoring

  /** How far the filter is with one exit: what it has read so far. */
  datatype Exam =
    | Idle
    | GotProcesses(pid: Pid, tracked: bool)
    | GotContainer(pid: Pid, tracked: bool, known: bool)
    | GotPhase(pid: Pid, tracked: bool, known: bool, down: bool)

  datatype State = State(
    registered: bool,        // in zeropodContainers
    scaledDown: bool,
    marked: set<Pid>,        // checkpointedPIDs
    current: Pid,            // the PID of the container's process
    running: set<Pid>,       // PIDs of the container in the service's running map
    lock: Lock,
    exam: Exam,
    // the operating system, and history
    alive: set<Pid>,
    exiting: set<Pid>,       // reaped, waiting in exitChan
    done: set<Pid>,          // scaled down successfully, by checkpoint or kill
    everMarked: set<Pid>,
    passed: set<Pid>,        // handed to the shim's task service
    hidden: set<Pid>
  )

  datatype Step =
    | MarkForCheckpoint | CheckpointOk | CheckpointFailed | PreDumpFailed
    | MarkForKill | KillOk | KillFailed
    | RestoreStarted(pid: Pid) | RestoreRegistered
    | EvacDone
    | Unregister
    | ExecStarted(pid: Pid)
    | Die(pid: Pid)
    | LookUpProcesses(pid: Pid) | LookUpContainer | ReadPhase | Decide
    | Reaped(pid: Pid)       // the shim's task service removes a passed exit from running

  /** A PID not known to the operating system yet. */
  predicate Fresh(s: State, pid: Pid) {
    && pid != s.current && !Examining(s, pid)
    && pid !in s.alive + s.exiting + s.passed + s.hidden + s.everMarked + s.running + s.done
  }

  predicate Examining(s: State, pid: Pid) {
    !s.exam.Idle? && s.exam.pid == pid
  }

  /** The exit of `pid` has not been passed on or hidden yet. */
  predicate Unseen(s: State, pid: Pid) {
    pid in s.alive || pid in s.exiting || Examining(s, pid)
  }

  /** The filter hides the exit it has read these facts about. */
  predicate Hides(s: State)
    requires s.exam.GotPhase?
  {
    s.exam.tracked && s.exam.known && (s.exam.down || s.exam.pid in s.marked)
  }

  predicate Enabled(s: State, step: Step) {
    match step
    case MarkForCheckpoint => s.lock.Free?
    case CheckpointOk => s.lock.Checkpointing? && s.lock.alive && s.current !in s.alive
    case CheckpointFailed => s.lock.Checkpointing?
    case PreDumpFailed => s.lock.Free?
    case MarkForKill => s.lock.Free?
    case KillOk => s.lock.Killing? && s.current !in s.alive
    case KillFailed => s.lock.Killing?
    case RestoreStarted(pid) => s.lock.Free? && s.scaledDown && Fresh(s, pid)
    case RestoreRegistered => s.lock.Restoring?
    case EvacDone => true
    case Unregister => true
    case ExecStarted(pid) => Fresh(s, pid)
    case Die(pid) => pid in s.alive
    case LookUpProcesses(pid) => s.exam.Idle? && pid in s.exiting
    case LookUpContainer => s.exam.GotProcesses?
    case ReadPhase => s.exam.GotContainer?
    case Decide => s.exam.GotPhase?
    case Reaped(pid) => pid in s.passed
  }

  /** The operation in progress marked a live process. */
  predicate Owned(l: Lock) {
    (l.Checkpointing? || l.Killing?) && l.alive
  }

  function Mark(s: State, l: Lock): State {
    s.(lock := l, marked := s.marked + {s.current}, everMarked := s.everMarked + {s.current})
  }

  function Down(s: State): State {
    s.(lock := Free, scaledDown := true, done := if Owned(s.lock) then s.done + {s.current} else s.done)
  }

  function Next(s: State, step: Step): State
    requires Enabled(s, step)
  {
    match step
    case MarkForCheckpoint => Mark(s, Checkpointing(s.current in s.alive))
    case CheckpointOk => Down(s)
    case CheckpointFailed => s.(lock := Free, marked := s.marked - {s.current})
    case PreDumpFailed => s.(marked := s.marked - {s.current})
    case MarkForKill => Mark(s, Killing(s.current in s.alive))
    case KillOk => Down(s)
    case KillFailed => s.(lock := Free)
    case RestoreStarted(pid) => s.(lock := Restoring, current := pid, alive := s.alive + {pid}, scaledDown := false)
    case RestoreRegistered => s.(lock := Free, running := s.running + {s.current})
    case EvacDone => s.(scaledDown := true)
    case Unregister => s.(registered := false)
    case ExecStarted(pid) => s.(alive := s.alive + {pid}, running := s.running + {pid})
    case Die(pid) => s.(alive := s.alive - {pid}, exiting := s.exiting + {pid})
    case LookUpProcesses(pid) => s.(exiting := s.exiting - {pid}, exam := GotProcesses(pid, pid in s.running))
    case LookUpContainer => s.(exam := GotContainer(s.exam.pid, s.exam.tracked, s.registered))
    case ReadPhase => s.(exam := GotPhase(s.exam.pid, s.exam.tracked, s.exam.known, s.scaledDown))
    case Decide =>
      var pid := s.exam.pid;
      if !Hides(s) then s.(exam := Idle, passed := s.passed + {pid})
      else s.(exam := Idle, hidden := s.hidden + {pid}, running := s.running - {pid},
              marked := if s.exam.down then s.marked else s.marked - {pid})
    case Reaped(pid) => s.(running := s.running - {pid})
  }

  /** After Create and Start: a running process, or a migrated one that is not started. */
  ghost predicate Initial(s: State) {
    && s.marked == s.everMarked == s.done == s.passed == s.hidden == s.exiting == {} && s.lock.Free? && s.exam.Idle?
    && s.running == s.alive && (s.scaledDown || s.current in s.alive) && s.registered
  }

  ghost predicate IsRun(ss: seq<State>, steps: seq<Step>) {
    && |ss| == |steps| + 1 && Initial(ss[0])
    && forall i :: 0 <= i < |steps| ==> Enabled(ss[i], steps[i]) && ss[i + 1] == Next(ss[i], steps[i])
  }

  /** No scale-down attempt enters the lock once the container is scaled down. The source
      tests the phase before it takes the lock, so only its callers can ensure this. */
  ghost predicate Disciplined(ss: seq<State>, steps: seq<Step>) {
    forall i :: 0 <= i < |steps| && i < |ss| ==>
      steps[i].MarkForCheckpoint? || steps[i].PreDumpFailed? ==> !ss[i].scaledDown
  }

  // ---------------------------------------------------------------- the invariant

  /** The exit of `pid` is hidden already, or will be: it is marked and the filter finds it. */
  predicate Held(s: State, pid: Pid) {
    && pid !in s.passed
    && (pid in s.hidden || (pid in s.marked && Unseen(s, pid) && Found(s, pid)))
  }

  predicate Found(s: State, pid: Pid) {
    if Examining(s, pid) then s.exam.tracked && (s.exam.GotProcesses? || s.exam.known) else pid in s.running
  }

  /** Every PID is in one place, and the current process is tracked once it is registered. */
  ghost predicate Places(s: State) {
    && s.alive !! s.exiting && s.alive + s.exiting !! s.passed + s.hidden
    && (!s.exam.Idle? ==> s.exam.pid !in s.alive + s.exiting + s.passed + s.hidden)
    && (!s.lock.Restoring? && s.current in s.alive ==> s.current in s.running)
    && s.marked <= s.everMarked
  }

  ghost predicate DoneInv(s: State) {
    && (s.current in s.done ==> s.scaledDown && !s.lock.Checkpointing?)
    && (s.registered ==>
          && (forall pid :: pid in s.done ==> Held(s, pid))
          && (Owned(s.lock) ==> Held(s, s.current)))
  }

  lemma PlacesKept(s: State, step: Step)
    requires Places(s) && Enabled(s, step)
    ensures Places(Next(s, step))
  {
    match step
    case Decide =>
    case _ =>
  }

  lemma DoneKept(s: State, step: Step)
    requires Places(s) && DoneInv(s) && Enabled(s, step)
    requires step.MarkForCheckpoint? || step.PreDumpFailed? ==> !s.scaledDown
    ensures DoneInv(Next(s, step))
  {
    var s' := Next(s, step);
    forall pid | s'.registered && (pid in s'.done || (Owned(s'.lock) && pid == s'.current)) ensures Held(s', pid) {
      HeldKept(s, step, pid);
    }
  }

  lemma HeldKept(s: State, step: Step, pid: Pid)
    requires Places(s) && DoneInv(s) && Enabled(s, step)
    requires step.MarkForCheckpoint? || step.PreDumpFailed? ==> !s.scaledDown
    requires var s' := Next(s, step); s'.registered && (pid in s'.done || (Owned(s'.lock) && pid == s'.current))
    ensures Held(Next(s, step), pid)
  {}

  lemma {:induction false} RunsKeepInv(ss: seq<State>, steps: seq<Step>, i: nat)
    requires IsRun(ss, steps) && Disciplined(ss, steps) && i < |ss|
    ensures Places(ss[i]) && DoneInv(ss[i])
  {
    hide Places, DoneInv, Next, Enabled;
    if i == 0 {
      InitialInv(ss[0]);
    } else {
      RunsKeepInv(ss, steps, i - 1);
      PlacesKept(ss[i - 1], steps[i - 1]);
      DoneKept(ss[i - 1], steps[i - 1]);
    }
  }

  lemma InitialInv(s: State)
    requires Initial(s)
    ensures Places(s) && DoneInv(s)
  {}

  // ---------------------------------------------------------------- theorems

  /** Over every disciplined run and for as long as the container is registered: the exit of
      a PID that was scaled down successfully is never passed to the shim's task service, whether
      the filter meets it before the phase changes, while scaled down or after a restore. */
  lemma ScaleDownExitsAreHidden(ss: seq<State>, steps: seq<Step>, i: nat, pid: Pid)
    requires IsRun(ss, steps) && Disciplined(ss, steps) && i < |ss|
    requires ss[i].registered && pid in ss[i].done
    ensures pid !in ss[i].passed && (!Unseen(ss[i], pid) ==> pid in ss[i].hidden)
  {
    RunsKeepInv(ss, steps, i);
  }

  /** What a scale-down and a restore do, in every run. A mark is set on the current process. A
      success scales the container down and frees the lock, so that it can be restored; a
      failed checkpoint takes the mark back and leaves the phase. A restore makes the new
      process the current one and ends the scaled-down phase, and registers it then. */
  lemma ScalingTakesEffect(ss: seq<State>, steps: seq<Step>, i: nat, pid: Pid)
    requires IsRun(ss, steps) && i < |steps|
    ensures var s, s', step := ss[i], ss[i + 1], steps[i];
      && (step == MarkForCheckpoint ==> s'.lock == Checkpointing(s.current in s.alive))
      && (step == MarkForKill ==> s'.lock == Killing(s.current in s.alive))
      && (step == MarkForCheckpoint || step == MarkForKill ==> s.current in s'.marked && s'.scaledDown == s.scaledDown)
      && (Succeeds(step) ==> s'.scaledDown && s'.lock.Free? && s'.marked == s.marked)
      && (Succeeds(step) && s.lock.alive ==> s.current in s'.done)
      && (Succeeds(step) && Fresh(s', pid) ==> Enabled(s', RestoreStarted(pid)))
      && (step == CheckpointFailed || step == PreDumpFailed ==>
            s.current !in s'.marked && s'.scaledDown == s.scaledDown)
      && (step == CheckpointFailed || step == KillFailed ==> s'.lock.Free?)
      && (step == RestoreStarted(pid) ==> !s'.scaledDown && s'.current == pid && pid in s'.alive)
      && (step == RestoreRegistered ==> s'.current == s.current && s.current in s'.running && s'.lock.Free?)
  {
    assert Enabled(ss[i], steps[i]) && ss[i + 1] == Next(ss[i], steps[i]);
  }

  predicate Succeeds(step: Step) {
    step == CheckpointOk || step == KillOk
  }

  /** The phase is that of the last successful scale-down, evacuation or restore. */
  lemma {:induction false} PhaseFollowsLastStep(ss: seq<State>, steps: seq<Step>, i: nat, j: nat)
    requires IsRun(ss, steps) && i < j < |ss|
    ensures (Succeeds(steps[i]) || steps[i] == EvacDone) && (forall k :: i < k < j ==> !steps[k].RestoreStarted?) ==>
      ss[j].scaledDown
    ensures steps[i].RestoreStarted? && (forall k :: i < k < j ==> !Succeeds(steps[k]) && steps[k] != EvacDone) ==>
      !ss[j].scaledDown
    decreases j
  {
    if i + 1 < j { PhaseFollowsLastStep(ss, steps, i, j - 1); }
    assert Enabled(ss[j - 1], steps[j - 1]) && ss[j] == Next(ss[j - 1], steps[j - 1]);
  }

  lemma {:induction false} DoneForGood(ss: seq<State>, steps: seq<Step>, i: nat, j: nat)
    requires IsRun(ss, steps) && i <= j < |ss|
    ensures ss[i].done <= ss[j].done
    decreases j
  {
    if i < j {
      DoneForGood(ss, steps, i, j - 1);
      assert Enabled(ss[j - 1], steps[j - 1]) && ss[j] == Next(ss[j - 1], steps[j - 1]);
    }
  }

  /** The same in terms of the steps: once a process that was alive when it was marked has been
      checkpointed or killed, its exit is not passed on at any later moment. */
  lemma ScaledDownProcessIsNeverPassedOn(ss: seq<State>, steps: seq<Step>, i: nat, j: nat)
    requires IsRun(ss, steps) && Disciplined(ss, steps) && i < j < |ss| && ss[j].registered
    requires Succeeds(steps[i]) && (steps[i] == CheckpointOk || ss[i].lock.alive)
    ensures ss[i].current !in ss[j].passed
    ensures !Unseen(ss[j], ss[i].current) ==> ss[i].current in ss[j].hidden
  {
    hide Next, Unseen;
    assert Enabled(ss[i], steps[i]);
    ScalingTakesEffect(ss, steps, i, 0);
    DoneForGood(ss, steps, i + 1, j);
    ScaleDownExitsAreHidden(ss, steps, j, ss[i].current);
  }

  /** A hidden exit was hidden for a reason: its PID had been marked, or the filter saw the
      container scaled down. So an exit of a PID never marked that meets a container not
      scaled down is passed on, in every run. */
  lemma UnmarkedExitsArePassedOn(ss: seq<State>, steps: seq<Step>, i: nat)
    requires IsRun(ss, steps) && i < |steps| && steps[i] == Decide
    requires ss[i].exam.pid !in ss[i].everMarked && !ss[i].exam.down
    ensures ss[i].exam.pid in ss[i + 1].passed
  {
    MarkedWasMarked(ss, steps, i);
  }

  lemma {:induction false} MarkedWasMarked(ss: seq<State>, steps: seq<Step>, i: nat)
    requires IsRun(ss, steps) && i < |ss|
    ensures ss[i].marked <= ss[i].everMarked
  {
    if i > 0 { MarkedWasMarked(ss, steps, i - 1); }
  }

  predicate Filters(step: Step) {
    step.LookUpProcesses? || step.LookUpContainer? || step.ReadPhase? || step.Decide?
  }

  lemma {:induction false} ExamStays(ss: seq<State>, steps: seq<Step>, i: nat, j: nat)
    requires IsRun(ss, steps) && i <= j < |ss| && forall k :: i <= k < j ==> !Filters(steps[k])
    ensures ss[j].exam == ss[i].exam
    decreases j
  {
    if i < j {
      ExamStays(ss, steps, i, j - 1);
      assert Enabled(ss[j - 1], steps[j - 1]) && ss[j] == Next(ss[j - 1], steps[j - 1]);
    }
  }

  /** The filter's verdict in terms of what it finds, each at its own moment, with anything
      happening in between: an exit is hidden exactly if its process was tracked when it was
      looked up, its container registered when that was looked up, and the container scaled
      down when the phase was read or the PID marked at the end. Otherwise it is passed on. */
  lemma HiddenExactlyIf(ss: seq<State>, steps: seq<Step>, a: nat, b: nat, c: nat, z: nat, pid: Pid)
    requires IsRun(ss, steps) && a < b < c < z < |steps|
    requires steps[a] == LookUpProcesses(pid) && steps[b] == LookUpContainer
    requires steps[c] == ReadPhase && steps[z] == Decide
    requires forall k :: a < k < z && k != b && k != c ==> !Filters(steps[k])
    ensures var hides := pid in ss[a].running && ss[b].registered && (ss[c].scaledDown || pid in ss[z].marked);
      if hides then pid in ss[z + 1].hidden && pid !in ss[z + 1].running && ss[z + 1].passed == ss[z].passed
      else pid in ss[z + 1].passed && ss[z + 1].hidden == ss[z].hidden
  {
    ReadsProcesses(ss, steps, a);
    ExamStays(ss, steps, a + 1, b);
    ReadsProcesses(ss, steps, b);
    ExamStays(ss, steps, b + 1, c);
    ReadsProcesses(ss, steps, c);
    ExamStays(ss, steps, c + 1, z);
    assert ss[z + 1] == Next(ss[z], steps[z]);
  }

  lemma ReadsProcesses(ss: seq<State>, steps: seq<Step>, i: nat)
    requires IsRun(ss, steps) && i < |steps|
    ensures var s, s', step := ss[i], ss[i + 1], steps[i];
      && (step.LookUpProcesses? ==> s'.exam == GotProcesses(step.pid, step.pid in s.running))
      && (step.LookUpContainer? && s.exam.GotProcesses? ==>
            s'.exam == GotContainer(s.exam.pid, s.exam.tracked, s.registered))
      && (step.ReadPhase? && s.exam.GotContainer? ==>
            s'.exam == GotPhase(s.exam.pid, s.exam.tracked, s.exam.known, s.scaledDown))
  {
    assert Enabled(ss[i], steps[i]) && ss[i + 1] == Next(ss[i], steps[i]);
  }

  // ---------------------------------------------------------------- the conditions are needed

  /** The filter looks at one exit from beginning to end. */
  function Filtered(s: State, pid: Pid): State
    requires s.exam.Idle? && pid in s.exiting
  {
    Next(Next(Next(Next(s, LookUpProcesses(pid)), LookUpContainer), ReadPhase), Decide)
  }

  /** Once the wrapper's Delete has unregistered the container, the exit is passed on. */
  lemma UnregisteredExitIsPassedOn(s: State, pid: Pid)
    requires s.exam.Idle? && pid in s.exiting
    ensures pid in Filtered(Next(s, Unregister), pid).passed
  {}

  /** A second attempt that takes the lock after a successful checkpoint and fails removes
      the mark; the exit, if it is only met after a restore, is then passed on. */
  lemma SecondAttemptUnhidesExit(s: State, pid: Pid)
    requires s.current in s.done && s.current in s.exiting && Fresh(s, pid)
    requires s.scaledDown && s.lock.Free? && s.exam.Idle?
    ensures var s1 := Next(Next(s, MarkForCheckpoint), CheckpointFailed);
      && Enabled(s1, RestoreStarted(pid))
      && s.current in Filtered(Next(Next(s1, RestoreStarted(pid)), RestoreRegistered), s.current).passed
  {
    hide Filtered;
    var s1 := Next(Next(s, MarkForCheckpoint), CheckpointFailed);
    UnmarkedIsPassed(Next(Next(s1, RestoreStarted(pid)), RestoreRegistered), s.current);
  }

  lemma UnmarkedIsPassed(s: State, pid: Pid)
    requires s.exam.Idle? && pid in s.exiting && !s.scaledDown && pid !in s.marked
    ensures pid in Filtered(s, pid).passed
  {}

  // ---------------------------------------------------------------- the code

  /** Steps that do not take, hold or release the CheckpointRestore lock. */
  predicate LockFree(step: Step) {
    step.EvacDone? || step.Unregister? || step.ExecStarted? || step.Die? || step.LookUpProcesses? ||
    step.LookUpContainer? || step.ReadPhase? || step.Decide? || step.Reaped?
  }

  /** What everybody else does, in this order, while the lock is held. */
  ghost predicate Meanwhile(s: State, steps: seq<Step>, s': State)
    decreases |steps|
  {
    if steps == [] then s' == s
    else LockFree(steps[0]) && Enabled(s, steps[0]) && Meanwhile(Next(s, steps[0]), steps[1..], s')
  }

  lemma {:induction false} MeanwhileKeepsLock(s: State, steps: seq<Step>, s': State)
    requires Meanwhile(s, steps, s')
    ensures s'.lock == s.lock && s'.current == s.current && s.everMarked <= s'.everMarked
    decreases |steps|
  {
    if steps != [] { MeanwhileKeepsLock(Next(s, steps[0]), steps[1..], s'); }
  }

  /** The fields of the shim's Container that decide about exits. */
  class Container {
    var scaledDown: bool
    var checkpointedPIDs: set<Pid>
    var pid: Pid

    constructor (pid: Pid)
      ensures !scaledDown && checkpointedPIDs == {} && this.pid == pid
    {
      scaledDown, checkpointedPIDs, this.pid := false, {}, pid;
    }

    /** The fields are those of `s`. */
    predicate Agrees(s: State)
      reads this
    {
      scaledDown == s.scaledDown && checkpointedPIDs == s.marked && pid == s.current
    }

    /** The other threads run until the state is `s'`. */
    method Yield(down: bool, marks: set<Pid>, ghost s: State, ghost others: seq<Step>, ghost s': State)
      requires Agrees(s) && Meanwhile(s, others, s') && down == s'.scaledDown && marks == s'.marked
      modifies `scaledDown, `checkpointedPIDs
      ensures Agrees(s') && s'.lock == s.lock && s'.current == s.current && s.everMarked <= s'.everMarked
    {
      MeanwhileKeepsLock(s, others, s');
      scaledDown, checkpointedPIDs := down, marks;
    }

    /** `checkpoint`. The PID is marked before the dump starts, the filter and everybody else
        run during the dump, and the phase changes only after it: these are the steps of the
        machine, in this order. `s1` is the state in which the dump ends. */
    method Checkpoint(prepared: bool, preDump: bool, preDumpOk: bool, dumpOk: bool, down: bool, marks: set<Pid>,
                      ghost s: State, ghost others: seq<Step>, ghost s1: State)
      returns (ok: bool)
      requires Agrees(s) && s.lock.Free? && down == s1.scaledDown && marks == s1.marked
      requires Meanwhile(Next(s, MarkForCheckpoint), others, s1) && (dumpOk ==> Enabled(s1, CheckpointOk))
      modifies `scaledDown, `checkpointedPIDs
      ensures ok == (prepared && (preDump ==> preDumpOk) && dumpOk)
      ensures !prepared ==> Agrees(s)
      ensures prepared && preDump && !preDumpOk ==> Agrees(Next(s, PreDumpFailed))
      ensures ok ==> Agrees(Next(s1, CheckpointOk)) && pid in s1.everMarked
      ensures ok ==> scaledDown && checkpointedPIDs == marks
      ensures !ok && prepared ==> pid !in checkpointedPIDs
      ensures prepared && (preDump ==> preDumpOk) && !dumpOk ==>
        Enabled(s1, CheckpointFailed) && Agrees(Next(s1, CheckpointFailed))
    {
      if !prepared { return false; }
      if preDump && !preDumpOk {
        checkpointedPIDs := checkpointedPIDs - {pid};
        return false;
      }
      checkpointedPIDs := checkpointedPIDs + {pid};
      Yield(down, marks, Next(s, MarkForCheckpoint), others, s1);
      if !dumpOk {
        checkpointedPIDs := checkpointedPIDs - {pid};
        return false;
      }
      scaledDown := true;
      return true;
    }

    /** `kill`, likewise: marked before the process is killed, scaled down after it is gone; a
        failed delete leaves the mark. */
    method Kill(deleteOk: bool, down: bool, marks: set<Pid>, ghost s: State, ghost others: seq<Step>, ghost s1: State)
      returns (ok: bool)
      requires Agrees(s) && s.lock.Free? && down == s1.scaledDown && marks == s1.marked
      requires Meanwhile(Next(s, MarkForKill), others, s1) && (deleteOk ==> Enabled(s1, KillOk))
      modifies `scaledDown, `checkpointedPIDs
      ensures ok == deleteOk
      ensures ok ==> Agrees(Next(s1, KillOk))
      ensures checkpointedPIDs == marks && scaledDown == (ok || down)
      ensures !ok ==> Enabled(s1, KillFailed) && Agrees(Next(s1, KillFailed))
    {
      checkpointedPIDs := checkpointedPIDs + {pid};
      Yield(down, marks, Next(s, MarkForKill), others, s1);
      ok := deleteOk;
      if ok { scaledDown := true; }
    }

    /** `Restore`: only from scaled down, with one retry without the checkpoint; a success is
        the restore step of the machine and a failure is none. */
    method Restore(allowed: bool, disabled: bool, first: bool, retry: bool, newPid: Pid, ghost s: State)
      returns (ok: bool)
      requires Agrees(s) && s.lock.Free? && Fresh(s, newPid)
      modifies `scaledDown, `pid
      ensures ok == (Enabled(s, RestoreStarted(newPid)) && allowed && (first || (!disabled && retry)))
      ensures Agrees(if ok then Next(s, RestoreStarted(newPid)) else s)
      ensures if ok then old(scaledDown) && !scaledDown && pid == newPid else unchanged(this)
    {
      if !scaledDown || !allowed { return false; }
      ok := first;
      if !ok && !disabled { ok := retry; }
      if ok { pid, scaledDown := newPid, false; }
    }

    /** `preventExit`, for the exit of a process of this container: the filter's last two steps.
        Whatever machine state the fields are those of, the exit is hidden exactly if the
        machine hides it, and the marks are then the machine's. */
    method PreventExit(p: Pid) returns (prevent: bool)
      modifies `checkpointedPIDs
      ensures prevent == (scaledDown || p in old(checkpointedPIDs))
      ensures checkpointedPIDs == if prevent && !scaledDown then old(checkpointedPIDs) - {p} else old(checkpointedPIDs)
      ensures forall s: State :: old(Agrees(s)) && s.exam == GotContainer(p, true, true) ==>
        prevent == Hides(Next(s, ReadPhase)) && Agrees(Next(Next(s, ReadPhase), Decide))
    {
      if scaledDown { return true; }
      if p in checkpointedPIDs {
        checkpointedPIDs := checkpointedPIDs - {p};
        return true;
      }
      return false;
    }
  }

  type Id = nat

  class Wrapper {
    var zeropodContainers: map<Id, Container>
    var running: map<Pid, seq<Id>>
    var runningExecs: map<Id, int>
    var execCountSubscribers: set<Id>

    /** The exit of `pid` is hidden because of its process in container `id`. */
    predicate Prevents(id: Id, pid: Pid)
      reads this, zeropodContainers.Values
    {
      id in zeropodContainers && (zeropodContainers[id].scaledDown || pid in zeropodContainers[id].checkpointedPIDs)
    }

    ghost predicate AnyPrevents(pid: Pid)
      reads this, zeropodContainers.Values
    {
      pid in running && exists k :: 0 <= k < |running[pid]| && Prevents(running[pid][k], pid)
    }

    /** One round of the wrapper's processExits: the exit goes to the shim's task service exactly if
        no process it ends belongs to a container that hides it; a hidden exit takes the
        process out of `running` and forgets the exec counts of its container. */
    method ProcessExit(pid: Pid) returns (pass: bool)
      modifies this, zeropodContainers.Values
      ensures pass <==> !old(AnyPrevents(pid))
      ensures zeropodContainers == old(zeropodContainers)
      ensures running == if pass then old(running) else old(running) - {pid}
      ensures runningExecs == if pass then old(runningExecs) else old(runningExecs) - (set id | id in old(running)[pid])
      ensures execCountSubscribers ==
        if pass then old(execCountSubscribers) else old(execCountSubscribers) - (set id | id in old(running)[pid])
      ensures pass ==> forall id :: id in zeropodContainers ==> unchanged(zeropodContainers[id])
    {
      var cps := if pid in running then running[pid] else [];
      var preventExit := false;
      for i := 0 to |cps|
        invariant zeropodContainers == old(zeropodContainers) && running == old(running)
        invariant runningExecs == old(runningExecs) && execCountSubscribers == old(execCountSubscribers)
        invariant preventExit <==> exists k :: 0 <= k < i && old(Prevents(cps[k], pid))
        invariant !preventExit ==> forall id :: id in zeropodContainers ==> unchanged(zeropodContainers[id])
      {
        if cps[i] in zeropodContainers {
          var prevent := zeropodContainers[cps[i]].PreventExit(pid);
          if prevent { preventExit := true; }
        }
      }
      if preventExit {
        running := running - {pid};
        for i := 0 to |cps|
          invariant zeropodContainers == old(zeropodContainers) && running == old(running) - {pid}
          invariant runningExecs == old(runningExecs) - (set id | id in cps[..i])
          invariant execCountSubscribers == old(execCountSubscribers) - (set id | id in cps[..i])
        {
          assert cps[..i + 1] == cps[..i] + [cps[i]];
          execCountSubscribers := execCountSubscribers - {cps[i]};
          runningExecs := runningExecs - {cps[i]};
        }
        assert cps[..|cps|] == cps;
        return false;
      }
      return true;
    }
  }
}
