/** The scale-down timer (shim/container.go): when a firing scales down, when it is put off,
    and to which instant. Times are in milliseconds and a check reads the clock once. */
module ScaleDown {
  const INITIAL_BACKOFF := 10
  const MAX_BACKOFF := 300_000

  type Time = int

  /** What the activity tracker says about one port. */
  datatype Lookup = At(t: Time) | NoActivity | Failed

  /** The latest activity over all ports. */
  datatype Last = Latest(t: Time) | NoneRecorded | LookupFailed

  predicate Sorted(ts: seq<Time>) {
    forall i, j :: 0 <= i < j < |ts| ==> ts[i] <= ts[j]
  }

  /** What `lastActivity` promises: one failing port fails it, ports without activity are
      left out, and the rest give their maximum. */
  ghost predicate IsLast(ports: seq<Lookup>, last: Last) {
    match last
    case LookupFailed => Failed in ports
    case NoneRecorded => forall p :: p in ports ==> p == NoActivity
    case Latest(t) => At(t) in ports && Failed !in ports && forall u :: At(u) in ports ==> u <= t
  }

  function LastOf(ports: seq<Lookup>): Last {
    if ports == [] then NoneRecorded
    else match (LastOf(ports[1..]), ports[0])
      case (LookupFailed, _) => LookupFailed
      case (_, Failed) => LookupFailed
      case (r, NoActivity) => r
      case (NoneRecorded, At(t)) => Latest(t)
      case (Latest(u), At(t)) => Latest(if t < u then u else t)
  }

  /** The promise determines the result. */
  lemma {:induction false} LastOfIsLast(ports: seq<Lookup>, last: Last)
    ensures IsLast(ports, last) <==> last == LastOf(ports)
  {
    if ports == [] {
    } else {
      var rest := ports[1..];
      assert ports == [ports[0]] + rest;
      LastOfIsLast(rest, LastOf(rest));
      LastOfFirst(ports);
      if IsLast(ports, last) { LastIsUnique(ports, last, LastOf(ports)); }
    }
  }

  lemma LastOfFirst(ports: seq<Lookup>)
    requires ports != [] && IsLast(ports[1..], LastOf(ports[1..]))
    ensures IsLast(ports, LastOf(ports))
  {
    var rest := ports[1..];
    assert ports == [ports[0]] + rest;
    assert forall p :: p in ports <==> p == ports[0] || p in rest;
  }

  lemma LastIsUnique(ports: seq<Lookup>, a: Last, b: Last)
    requires IsLast(ports, a) && IsLast(ports, b)
    ensures a == b
  {
    if a.Latest? && b.Latest? {
      assert At(a.t) in ports && At(b.t) in ports;
    }
  }

  method Insert(ts: seq<Time>, t: Time) returns (r: seq<Time>)
    requires Sorted(ts)
    ensures Sorted(r) && multiset(r) == multiset(ts) + multiset{t}
  {
    var i := 0;
    while i < |ts| && ts[i] <= t
      invariant i <= |ts| && forall j :: 0 <= j < i ==> ts[j] <= t
    {
      i := i + 1;
    }
    r := ts[..i] + [t] + ts[i..];
    InsertSorted(ts, i, t);
    InsertKeeps(ts, i, t);
  }

  lemma InsertSorted(ts: seq<Time>, i: nat, t: Time)
    requires Sorted(ts) && i <= |ts| && (forall j :: 0 <= j < i ==> ts[j] <= t) && (i < |ts| ==> t < ts[i])
    ensures Sorted(ts[..i] + [t] + ts[i..])
  {
    var r := ts[..i] + [t] + ts[i..];
    assert forall j :: 0 <= j < i ==> r[j] == ts[j];
    assert forall j :: i < j < |r| ==> r[j] == ts[j - 1];
  }

  lemma InsertKeeps(ts: seq<Time>, i: nat, t: Time)
    requires i <= |ts|
    ensures multiset(ts[..i] + [t] + ts[i..]) == multiset(ts) + multiset{t}
  {
    assert ts == ts[..i] + ts[i..];
    assert multiset(ts[..i] + [t] + ts[i..]) == multiset(ts[..i]) + multiset{t} + multiset(ts[i..]);
  }

  method Sort(ts: seq<Time>) returns (r: seq<Time>)
    ensures Sorted(r) && multiset(r) == multiset(ts)
  {
    r := [];
    var i := 0;
    while i < |ts|
      invariant i <= |ts| && Sorted(r) && multiset(r) == multiset(ts[..i])
    {
      r := Insert(r, ts[i]);
      assert ts[..i + 1] == ts[..i] + [ts[i]];
      i := i + 1;
    }
    assert ts[..i] == ts;
  }

  /** `lastActivity`: collect, sort, take the last. */
  method LastActivity(ports: seq<Lookup>) returns (last: Last)
    ensures IsLast(ports, last)
  {
    var act: seq<Time>, i := [], 0;
    while i < |ports|
      invariant i <= |ports| && Failed !in ports[..i]
      invariant forall t :: t in act <==> At(t) in ports[..i]
      invariant act == [] ==> forall p :: p in ports[..i] ==> p == NoActivity
    {
      assert ports[..i + 1] == ports[..i] + [ports[i]];
      match ports[i] {
        case Failed => return LookupFailed;
        case NoActivity =>
        case At(t) => act := act + [t];
      }
      i := i + 1;
    }
    assert ports[..i] == ports;
    if |act| == 0 {
      return NoneRecorded;
    }
    var sorted := Sort(act);
    SortedLast(sorted, act);
    return Latest(sorted[|sorted| - 1]);
  }

  lemma SortedLast(sorted: seq<Time>, ts: seq<Time>)
    requires Sorted(sorted) && multiset(sorted) == multiset(ts) && ts != []
    ensures sorted != [] && sorted[|sorted| - 1] in ts && forall t :: t in ts ==> t <= sorted[|sorted| - 1]
  {
    assert |multiset(sorted)| == |multiset(ts)|;
    assert sorted[|sorted| - 1] in multiset(sorted);
    forall t | t in ts ensures t <= sorted[|sorted| - 1] {
      assert t in multiset(sorted);
    }
  }

  // ---------------------------------------------------------------- runs

  datatype Timer = Stopped | Armed(at: Time)

  /** A check puts the scale-down off while the last activity is younger than the duration. */
  predicate PutOff(now: Time, last: Last, duration: Time) {
    last.Latest? && now - last.t < duration
  }

  /** `ports` is the recorded activity. The timer and the callbacks it has fired are told
      apart by whether anything has happened since the timer was armed for a full duration
      (history): `quiet` for the timer, `calm` and `loud` for the callbacks yet to run. */
  datatype State = State(now: Time, timer: Timer, ports: seq<Lookup>, quiet: bool, calm: nat, loud: nat)

  datatype Step =
    | Wait(d: nat)
    | Touch(port: nat)
    | Schedule
    | Cancel
    | Fire
    | Check(calm: bool, started: bool, seen: seq<Lookup>, backoff: Time, ok: bool)

  /** A lookup shows what is recorded, or fails. */
  predicate Sees(ports: seq<Lookup>, seen: seq<Lookup>) {
    |seen| == |ports| && forall p :: 0 <= p < |ports| ==> seen[p] == ports[p] || seen[p] == Failed
  }

  /** A fired callback runs at any later time, so the timer may have been armed again. */
  predicate Enabled(s: State, step: Step) {
    match step
    case Touch(port) => port < |s.ports|
    case Fire => s.timer.Armed? && s.timer.at <= s.now
    case Check(calm, started, seen, backoff, ok) => (if calm then s.calm > 0 else s.loud > 0) && Sees(s.ports, seen)
    case _ => true
  }

  predicate Attempts(s: State, step: Step, duration: Time) {
    step.Check? && step.started && !PutOff(s.now, LastOf(step.seen), duration)
  }

  function Ran(s: State, calm: bool): State
    requires if calm then s.calm > 0 else s.loud > 0
  {
    if calm then s.(calm := s.calm - 1) else s.(loud := s.loud - 1)
  }

  function Arm(s: State, at: Time, quiet: bool): State {
    s.(timer := Armed(at), quiet := quiet)
  }

  function Next(s: State, step: Step, duration: Time): State
    requires Enabled(s, step)
  {
    match step
    case Wait(d) => s.(now := s.now + d)
    case Touch(port) => s.(ports := s.ports[port := At(s.now)], quiet := false, calm := 0, loud := s.calm + s.loud)
    case Schedule => if duration == 0 then s.(timer := Stopped) else Arm(s, s.now + duration, true)
    case Cancel => s.(timer := Stopped)
    case Fire =>
      s.(timer := Stopped,
         calm := if s.quiet then s.calm + 1 else s.calm,
         loud := if s.quiet then s.loud else s.loud + 1)
    case Check(calm, started, seen, backoff, ok) =>
      if !started then Arm(Ran(s, calm), s.now + backoff, false)
      else if PutOff(s.now, LastOf(seen), duration) then Arm(Ran(s, calm), LastOf(seen).t + duration, true)
      else if ok then Ran(s, calm)
      else Arm(Ran(s, calm), s.now + duration, true)
  }

  ghost predicate IsRun(ss: seq<State>, steps: seq<Step>, duration: Time) {
    && |ss| == |steps| + 1
    && ss[0].timer == Stopped && ss[0].calm == ss[0].loud == 0
    && (forall p :: 0 <= p < |ss[0].ports| ==> ss[0].ports[p] == NoActivity)
    && forall i :: 0 <= i < |steps| ==> Enabled(ss[i], steps[i]) && ss[i + 1] == Next(ss[i], steps[i], duration)
  }

  /** Every port has been idle for the duration by time `at`. */
  predicate IdleBy(ports: seq<Lookup>, at: Time, duration: Time) {
    forall p :: 0 <= p < |ports| && ports[p].At? ==> ports[p].t + duration <= at
  }

  ghost predicate Inv(s: State, duration: Time) {
    && (forall p :: 0 <= p < |s.ports| ==> s.ports[p] != Failed && (s.ports[p].At? ==> s.ports[p].t <= s.now))
    && (s.quiet && s.timer.Armed? ==> IdleBy(s.ports, s.timer.at, duration))
    && (s.calm > 0 ==> IdleBy(s.ports, s.now, duration))
  }

  /** What the looked-up maximum says about every recorded activity. */
  lemma SeenBound(ports: seq<Lookup>, seen: seq<Lookup>)
    requires Sees(ports, seen) && LastOf(seen).Latest?
    ensures forall p :: 0 <= p < |ports| && ports[p].At? ==> ports[p].t <= LastOf(seen).t
  {
    LastOfIsLast(seen, LastOf(seen));
    forall p | 0 <= p < |ports| && ports[p].At? ensures ports[p].t <= LastOf(seen).t {
      assert seen[p] in seen;
    }
  }

  lemma InvKept(s: State, step: Step, duration: Time)
    requires Inv(s, duration) && Enabled(s, step)
    ensures Inv(Next(s, step, duration), duration)
  {
    hide LastOf;
    if step.Check? && step.started && LastOf(step.seen).Latest? { SeenBound(s.ports, step.seen); }
  }

  lemma {:induction false} RunsKeepInv(ss: seq<State>, steps: seq<Step>, duration: Time, i: nat)
    requires IsRun(ss, steps, duration) && i < |ss|
    ensures Inv(ss[i], duration)
  {
    hide Next, Enabled;
    if i > 0 {
      RunsKeepInv(ss, steps, duration, i - 1);
      InvKept(ss[i - 1], steps[i - 1], duration);
    }
  }

  /** Every attempt of every run: a lookup failed, nothing was ever recorded, or the last
      activity of every port is at least the duration old. */
  lemma AttemptsOnlyWhenIdle(ss: seq<State>, steps: seq<Step>, duration: Time, i: nat)
    requires IsRun(ss, steps, duration) && i < |steps| && Attempts(ss[i], steps[i], duration)
    ensures Failed in steps[i].seen || IdleBy(ss[i].ports, ss[i].now, duration)
  {
    hide LastOf;
    var seen := steps[i].seen;
    LastOfIsLast(seen, LastOf(seen));
    assert Enabled(ss[i], steps[i]);
    if LastOf(seen).Latest? { SeenBound(ss[i].ports, seen); }
    forall p | 0 <= p < |ss[i].ports| && ss[i].ports[p].At? && Failed !in seen
      ensures ss[i].ports[p].t + duration <= ss[i].now
    {
      assert seen[p] in seen;
    }
  }

  lemma IdleAttempts(s: State, step: Step, duration: Time)
    requires Enabled(s, step) && step.Check? && step.started && IdleBy(s.ports, s.now, duration)
    ensures Attempts(s, step, duration)
  {
    hide LastOf;
    LastOfIsLast(step.seen, LastOf(step.seen));
    if LastOf(step.seen).Latest? {
      var p :| 0 <= p < |step.seen| && step.seen[p] == At(LastOf(step.seen).t);
      assert s.ports[p] == step.seen[p];
    }
  }

  /** Every check of every run: if nothing has happened since its timer was armed for a full
      duration, the scale-down is attempted, however late the check runs and whatever has
      been scheduled meanwhile. */
  lemma CalmCheckAttempts(ss: seq<State>, steps: seq<Step>, duration: Time, i: nat)
    requires IsRun(ss, steps, duration) && i < |steps| && steps[i].Check? && steps[i].started && steps[i].calm
    ensures Attempts(ss[i], steps[i], duration)
  {
    hide IdleBy, LastOf;
    RunsKeepInv(ss, steps, duration, i);
    IdleAttempts(ss[i], steps[i], duration);
  }

  /** A check that is put off arms the timer for exactly the last activity plus the duration.
      Any check after that timer has fired attempts the scale-down, unless there was activity
      in between. */
  lemma {:induction false} PutOffThenAttempts(ss: seq<State>, steps: seq<Step>, duration: Time, i: nat, j: nat, k: nat)
    requires IsRun(ss, steps, duration) && i < j < k < |steps|
    requires steps[i].Check? && steps[i].started && !Attempts(ss[i], steps[i], duration)
    requires forall n :: i < n < k ==> !steps[n].Touch?
    requires forall n :: i < n < j ==> !steps[n].Check?
    requires steps[j].Fire? && steps[k].Check? && steps[k].started
    ensures LastOf(steps[i].seen).Latest? && ss[i + 1].timer == Armed(LastOf(steps[i].seen).t + duration)
    ensures Attempts(ss[k], steps[k], duration)
  {
    hide LastOf, IdleBy;
    assert ss[i + 1] == Next(ss[i], steps[i], duration);
    QuietUntil(ss, steps, duration, i + 1, j);
    assert ss[j + 1] == Next(ss[j], steps[j], duration);
    RunsKeepInv(ss, steps, duration, j + 1);
    IdleUntil(ss, steps, duration, j + 1, k);
    IdleAttempts(ss[k], steps[k], duration);
  }

  lemma {:induction false} QuietUntil(ss: seq<State>, steps: seq<Step>, duration: Time, i: nat, j: nat)
    requires IsRun(ss, steps, duration) && i <= j < |ss| && ss[i].quiet
    requires forall k :: i <= k < j ==> !steps[k].Touch? && !steps[k].Check?
    ensures ss[j].quiet
    decreases j
  {
    if i < j {
      QuietUntil(ss, steps, duration, i, j - 1);
      assert ss[j] == Next(ss[j - 1], steps[j - 1], duration);
    }
  }

  lemma {:induction false} IdleUntil(ss: seq<State>, steps: seq<Step>, duration: Time, i: nat, j: nat)
    requires IsRun(ss, steps, duration) && i <= j < |ss| && IdleBy(ss[i].ports, ss[i].now, duration)
    requires forall k :: i <= k < j ==> !steps[k].Touch?
    ensures IdleBy(ss[j].ports, ss[j].now, duration)
    decreases j
  {
    if i < j {
      IdleUntil(ss, steps, duration, i, j - 1);
      assert ss[j] == Next(ss[j - 1], steps[j - 1], duration);
    }
  }

  // ---------------------------------------------------------------- the timer keeps its promise

  /** When the timer is armed, and for when: by scheduling for a duration from now, unless the
      duration is zero; by a check for the last activity plus the duration, for a duration
      after a failed attempt, and for the backoff while the activator is not started. */
  lemma WhenArmed(ss: seq<State>, steps: seq<Step>, duration: Time, i: nat)
    requires IsRun(ss, steps, duration) && i < |steps|
    ensures var s, s', step := ss[i], ss[i + 1], steps[i];
      && s'.now == s.now + (if step.Wait? then step.d else 0)
      && (step.Wait? || step.Touch? ==> s'.timer == s.timer)
      && (step.Schedule? ==> s'.timer == if duration == 0 then Stopped else Armed(s.now + duration))
      && (step.Cancel? || step.Fire? ==> s'.timer == Stopped)
      && (step.Check? && !step.started ==> s'.timer == Armed(s.now + step.backoff))
      && (step.Check? && step.started && !Attempts(s, step, duration) ==>
            LastOf(step.seen).Latest? && s'.timer == Armed(LastOf(step.seen).t + duration) && s'.timer.at > s.now)
      && (Attempts(s, step, duration) ==> s'.timer == if step.ok then s.timer else Armed(s.now + duration))
  {
    hide LastOf;
    assert Enabled(ss[i], steps[i]) && ss[i + 1] == Next(ss[i], steps[i], duration);
  }

  predicate OnlyTimePasses(steps: seq<Step>, i: nat, j: nat) {
    j <= |steps| && forall k :: i <= k < j ==> steps[k].Wait? || steps[k].Touch?
  }

  lemma {:induction false} TimerStays(ss: seq<State>, steps: seq<Step>, duration: Time, i: nat, j: nat)
    requires IsRun(ss, steps, duration) && i <= j < |ss| && OnlyTimePasses(steps, i, j)
    ensures ss[j].timer == ss[i].timer && ss[j].now >= ss[i].now
    decreases j
  {
    if i < j {
      TimerStays(ss, steps, duration, i, j - 1);
      WhenArmed(ss, steps, duration, j - 1);
    }
  }

  /** A timer armed for `at` can fire from then on and not before; a stopped one cannot. */
  lemma ArmedFiresThen(ss: seq<State>, steps: seq<Step>, duration: Time, i: nat, j: nat)
    requires IsRun(ss, steps, duration) && i <= j < |ss| && OnlyTimePasses(steps, i, j)
    ensures ss[i].timer.Armed? ==> (Enabled(ss[j], Fire) <==> ss[j].now >= ss[i].timer.at)
    ensures ss[i].timer.Stopped? ==> !Enabled(ss[j], Fire)
  {
    TimerStays(ss, steps, duration, i, j);
  }

  /** Scheduling makes the timer fire after exactly the duration, whatever was pending; with a
      zero duration it never fires. */
  lemma ScheduleFiresAfterDuration(ss: seq<State>, steps: seq<Step>, duration: Time, i: nat, j: nat)
    requires IsRun(ss, steps, duration) && i < j < |ss| && steps[i] == Schedule && OnlyTimePasses(steps, i + 1, j)
    ensures Enabled(ss[j], Fire) <==> duration != 0 && ss[j].now >= ss[i].now + duration
  {
    WhenArmed(ss, steps, duration, i);
    ArmedFiresThen(ss, steps, duration, i + 1, j);
  }

  /** A fired timer can run its check, until it has. */
  lemma {:induction false} FiredTimerChecks(ss: seq<State>, steps: seq<Step>, duration: Time, i: nat, j: nat)
    requires IsRun(ss, steps, duration) && i < j < |ss| && steps[i] == Fire
    requires forall k :: i < k < j ==> !steps[k].Check?
    ensures forall started, backoff, ok ::
      || Enabled(ss[j], Check(true, started, ss[j].ports, backoff, ok))
      || Enabled(ss[j], Check(false, started, ss[j].ports, backoff, ok))
  {
    FiredTimerWaits(ss, steps, duration, i, j);
  }

  lemma {:induction false} FiredTimerWaits(ss: seq<State>, steps: seq<Step>, duration: Time, i: nat, j: nat)
    requires IsRun(ss, steps, duration) && i < j < |ss| && steps[i] == Fire
    requires forall k :: i < k < j ==> !steps[k].Check?
    ensures ss[j].calm + ss[j].loud > 0
    decreases j
  {
    if i + 1 < j { FiredTimerWaits(ss, steps, duration, i, j - 1); }
    assert ss[j] == Next(ss[j - 1], steps[j - 1], duration);
  }

  /** A container that stays idle is scaled down: scheduled, fired after the duration, and
      attempted by the check that follows. */
  lemma IdleContainerIsScaledDown(ss: seq<State>, steps: seq<Step>, duration: Time, i: nat, j: nat, k: nat)
    requires IsRun(ss, steps, duration) && i < j < k < |steps| && steps[i] == Schedule && duration != 0
    requires forall n :: i < n < k && n != j ==> steps[n].Wait?
    requires steps[j] == Fire && steps[k].Check? && steps[k].started
    ensures ss[j].now >= ss[i].now + duration && Attempts(ss[k], steps[k], duration)
  {
    hide LastOf, IdleBy;
    assert Enabled(ss[j], Fire);
    ScheduleFiresAfterDuration(ss, steps, duration, i, j);
    assert ss[i + 1] == Next(ss[i], steps[i], duration);
    QuietUntil(ss, steps, duration, i + 1, j);
    assert ss[j + 1] == Next(ss[j], steps[j], duration);
    RunsKeepInv(ss, steps, duration, j + 1);
    IdleUntil(ss, steps, duration, j + 1, k);
    IdleAttempts(ss[k], steps[k], duration);
  }

  /** Activity is remembered: a port's last activity is never older than one that happened. */
  lemma {:induction false} ActivityIsRecorded(ss: seq<State>, steps: seq<Step>, duration: Time, i: nat, j: nat)
    requires IsRun(ss, steps, duration) && i < j < |ss| && steps[i].Touch?
    ensures steps[i].port < |ss[j].ports| && ss[j].ports[steps[i].port].At?
    ensures ss[i].now <= ss[j].ports[steps[i].port].t && ss[i].now <= ss[j].now
    decreases j
  {
    if i + 1 < j { ActivityIsRecorded(ss, steps, duration, i, j - 1); }
    assert Enabled(ss[j - 1], steps[j - 1]) && ss[j] == Next(ss[j - 1], steps[j - 1], duration);
  }

  /** No scale-down is attempted within the duration after any activity, unless a lookup
      fails. */
  lemma ActivityPutsOff(ss: seq<State>, steps: seq<Step>, duration: Time, i: nat, j: nat)
    requires IsRun(ss, steps, duration) && i < j < |steps| && steps[i].Touch?
    requires Attempts(ss[j], steps[j], duration) && Failed !in steps[j].seen
    ensures ss[i].now + duration <= ss[j].now
  {
    hide LastOf;
    ActivityIsRecorded(ss, steps, duration, i, j);
    AttemptsOnlyWhenIdle(ss, steps, duration, j);
  }

  // ---------------------------------------------------------------- the code

  class Container {
    const duration: Time
    var timer: Timer
    var initBackoff: Time
    var disableCheckpointing: bool

    ghost predicate Valid()
      reads this
    {
      initBackoff == 0 || INITIAL_BACKOFF <= initBackoff <= MAX_BACKOFF
    }

    constructor (duration: Time)
      ensures this.duration == duration && timer == Stopped && initBackoff == 0 && !disableCheckpointing && Valid()
    {
      this.duration, timer, initBackoff, disableCheckpointing := duration, Stopped, 0, false;
    }

    method CancelScaleDown(ghost s: State)
      requires timer == s.timer
      modifies `timer
      ensures timer == Next(s, Cancel, duration).timer == Stopped
    {
      timer := Stopped;
    }

    /** `ScheduleScaleDown`: replaces a pending scale-down; a zero duration disables it. */
    method ScheduleScaleDown(now: Time, ghost s: State)
      requires timer == s.timer && now == s.now
      modifies `timer
      ensures timer == Next(s, Schedule, duration).timer
      ensures timer == if duration == 0 then Stopped else Armed(now + duration)
    {
      CancelScaleDown(s);
      if duration == 0 { return; }
      timer := Armed(now + duration);
    }

    /** `initRetry`: doubles from 10 milliseconds up to 5 minutes. */
    method InitRetry() returns (delay: Time)
      requires Valid()
      modifies `initBackoff
      ensures Valid() && delay == initBackoff && INITIAL_BACKOFF <= initBackoff <= MAX_BACKOFF
      ensures old(initBackoff) == 0 ==> delay == 10
      ensures old(initBackoff) != 0 ==>
        delay == if 2 * old(initBackoff) < 300_000 then 2 * old(initBackoff) else 300_000
    {
      initBackoff := if 2 * initBackoff < MAX_BACKOFF then 2 * initBackoff else MAX_BACKOFF;
      if initBackoff == 0 { initBackoff := INITIAL_BACKOFF; }
      delay := initBackoff;
    }

    /** `scaleDownCheck`, run by a fired timer: one step of the machine, whatever the timer is
        doing by then. `ok` is how the scale-down itself ends. */
    method ScaleDownCheck(now: Time, started: bool, ports: seq<Lookup>, ok: bool, ghost calm: bool, ghost s: State)
      returns (attempted: bool)
      requires Valid() && timer == s.timer && now == s.now && Enabled(s, Check(calm, started, ports, initBackoff, ok))
      modifies `timer, `initBackoff, `disableCheckpointing
      ensures Valid() && attempted == Attempts(s, Check(calm, started, ports, initBackoff, ok), duration)
      ensures timer == Next(s, Check(calm, started, ports, initBackoff, ok), duration).timer
      ensures !started ==> !attempted && timer == Armed(now + initBackoff)
      ensures started ==> (attempted <==> !(LastOf(ports).Latest? && now < LastOf(ports).t + duration))
      ensures started && !attempted ==> timer == Armed(LastOf(ports).t + duration)
      ensures attempted ==> timer == if ok then old(timer) else Armed(now + duration)
      ensures disableCheckpointing == (old(disableCheckpointing) || (attempted && !ok))
    {
      hide LastOf;
      if !started {
        var delay := InitRetry();
        timer := Armed(now + delay);
        return false;
      }
      var last := LastActivity(ports);
      LastOfIsLast(ports, last);
      if last.Latest? && now - last.t < duration {
        var delay := duration - (now - last.t);
        if delay < 0 { return false; }
        timer := Armed(now + delay);
        return false;
      }
      attempted := true;
      if !ok {
        disableCheckpointing := true;
        timer := Armed(now + duration);
      }
    }
  }
}
