/** The migration protocol's guarantees, over all runs. A state keeps every version ever
    stored, so each theorem speaks of the whole life of the object. */
module MigrationTheorems {
  import opened Migration
  import opened Options
  import opened MigrationProof

  lemma InvStart(s: State)
    requires Initial(s)
    ensures Inv(s)
  {
    assert Before(s.versions[0].m, s.versions[0].m);
  }

  lemma {:induction false} RunsKeepInv(ss: seq<State>, steps: seq<Step>, i: nat)
    requires IsRun(ss, steps) && i < |ss|
    ensures Inv(ss[i])
  {
    hide Inv, Initial, Enabled, Next;
    if i == 0 {
      InvStart(ss[0]);
    } else {
      RunsKeepInv(ss, steps, i - 1);
      InvKept(ss[i - 1], steps[i - 1]);
    }
  }

  lemma StepGrows(s: State, step: Step)
    requires Enabled(s, step)
    ensures s.versions <= Next(s, step).versions && s.claims <= Next(s, step).claims
  {
    hide SetPhase, SetServers, FirstStatus, HasUnclaimed, PhaseOf;
  }

  /** Nothing stored is ever rewritten: a later state's history extends an earlier one's. */
  lemma {:induction false} HistoryOnlyGrows(ss: seq<State>, steps: seq<Step>, i: nat, j: nat)
    requires IsRun(ss, steps) && i <= j < |ss|
    ensures ss[i].versions <= ss[j].versions && ss[i].claims <= ss[j].claims
    decreases j
  {
    hide Initial, Enabled, Next;
    if i < j {
      HistoryOnlyGrows(ss, steps, i, j - 1);
      StepGrows(ss[j - 1], steps[j - 1]);
    }
  }

  /** Once set, target pod and node never change; at most one pod ever claims, it is the
      target, and its template hash is the migration's. */
  lemma ClaimIsFinal(ss: seq<State>, steps: seq<Step>, i: nat, a: nat, b: nat)
    requires IsRun(ss, steps) && i < |ss| && a <= b < |ss[i].versions|
    ensures var ma, mb := ss[i].versions[a].m, ss[i].versions[b].m;
      && (ma.targetPod != "" <==> ma.targetNode != "")
      && (ma.targetPod != "" ==> mb.targetPod == ma.targetPod && mb.targetNode == ma.targetNode)
      && (ma.targetPod != "" ==> ss[i].claims == [Pod(ma.targetPod, ma.targetNode, ma.hash)])
    ensures |ss[i].claims| <= 1
  {
    hide IsRun, Follows, HasUnclaimed, Unique, ServersOk, LiveOk;
    RunsKeepInv(ss, steps, i);
    var vs := ss[i].versions;
    assert Good(vs[a]) && Before(vs[a].m, vs[b].m) && Before(vs[a].m, Latest(ss[i]).m);
  }

  /** Unclaimed without a target stays so, however stale the claimers' reads are. */
  lemma UnclaimedIsFinal(ss: seq<State>, steps: seq<Step>, i: nat, a: nat, b: nat)
    requires IsRun(ss, steps) && i < |ss| && a <= b < |ss[i].versions|
    requires HasUnclaimed(ss[i].versions[a].m.status) && ss[i].versions[a].m.targetNode == ""
    ensures ss[i].versions[b].m.targetNode == "" && ss[i].versions[b].m.targetPod == ""
    ensures ss[i].versions[b].m.Claimed() && ss[i].claims == []
  {
    hide IsRun, Follows, HasUnclaimed, Unique, ServersOk, LiveOk;
    RunsKeepInv(ss, steps, i);
    var vs := ss[i].versions;
    assert Good(vs[b]) && Good(Latest(ss[i])) && Before(vs[a].m, vs[b].m) && Before(vs[a].m, Latest(ss[i]).m);
  }

  /** Servers are published in order, and each container's page server is there exactly if
      its own evacuation was live. */
  lemma ServersInOrder(ss: seq<State>, steps: seq<Step>, i: nat, a: nat, k: nat)
    requires IsRun(ss, steps) && i < |ss| && a < |ss[i].versions| && k < |ss[i].versions[a].m.containers|
    ensures var Version(m, evacs) := ss[i].versions[a];
      && (m.restoreReady ==> m.targetPod != "" && m.targetNode != "")
      && (m.containers[k].image.Some? ==>
            && m.restoreReady && m.containers[k].name in evacs
            && (m.containers[k].page.Some? <==> evacs[m.containers[k].name]))
  {
    hide IsRun, Before, Follows, HasUnclaimed, Unique, LiveOk;
    RunsKeepInv(ss, steps, i);
    assert Good(ss[i].versions[a]);
  }

  /** What Restore relies on when it leaves its wait for the servers: live implies a page
      server. It holds exactly if this container was evacuated the way the live flag says. */
  lemma LiveNeedsAgreement(ss: seq<State>, steps: seq<Step>, i: nat, a: nat, k: nat)
    requires IsRun(ss, steps) && i < |ss| && a < |ss[i].versions| && k < |ss[i].versions[a].m.containers|
    requires ss[i].versions[a].m.containers[k].image.Some?
    ensures var Version(m, evacs) := ss[i].versions[a];
      && m.containers[k].name in evacs
      && (m.live ==> (m.containers[k].page.Some? <==> evacs[m.containers[k].name] == m.live))
      && (|m.containers| == 1 ==> evacs[m.containers[k].name] == m.live && (m.live <==> m.containers[k].page.Some?))
  {
    hide IsRun, Before, Follows, HasUnclaimed, Unique;
    RunsKeepInv(ss, steps, i);
    assert Good(ss[i].versions[a]);
  }

  // ---------------------------------------------------------------- phases

  ghost predicate SameBut(x: seq<Status>, y: seq<Status>, only: string) {
    forall other :: other != only ==> PhaseOf(y, other) == PhaseOf(x, other)
  }

  /** From one version to the next a completed container may only become failed or
      unclaimed, at most one entry changes, and names stay unique. */
  lemma PhaseSteps(ss: seq<State>, steps: seq<Step>, i: nat, a: nat, name: string)
    requires IsRun(ss, steps) && i < |ss| && a + 1 < |ss[i].versions|
    ensures var x, y := ss[i].versions[a].m.status, ss[i].versions[a + 1].m.status;
      && Unique(Names(y))
      && (PhaseOf(x, name) == Some(Completed) ==> Ended(PhaseOf(y, name)))
      && (x == [] || exists only :: SameBut(x, y, only))
  {
    hide IsRun, Before, HasUnclaimed, Unique, ServersOk, LiveOk, PhaseOf;
    RunsKeepInv(ss, steps, i);
    var x, y := ss[i].versions[a].m.status, ss[i].versions[a + 1].m.status;
    assert Good(ss[i].versions[a + 1]) && Follows(x, y);
    if x == y {
      assert SameBut(x, y, name);
    } else if x != [] {
      var only, phase :| y == SetPhase(x, only, phase);
      SetPhaseSameBut(x, only, phase);
      assert SameBut(x, y, only);
    }
  }

  lemma SetPhaseSameBut(x: seq<Status>, only: string, phase: Phase)
    ensures SameBut(x, SetPhase(x, only, phase), only)
  {
    forall other | other != only ensures PhaseOf(SetPhase(x, only, phase), other) == PhaseOf(x, other) {
      SetPhaseFrame(x, only, phase, other);
    }
  }

  /** Pending can only be a container's first phase, and a container with a phase keeps one. */
  lemma PendingIsFirst(ss: seq<State>, steps: seq<Step>, i: nat, a: nat, b: nat, name: string)
    requires IsRun(ss, steps) && i < |ss| && a <= b < |ss[i].versions|
    ensures var x, y := PhaseOf(ss[i].versions[a].m.status, name), PhaseOf(ss[i].versions[b].m.status, name);
      x.Some? ==> y.Some? && (y == Some(Pending) ==> x == Some(Pending))
  {
    hide IsRun, Good, Follows, HasUnclaimed, PhaseOf;
    RunsKeepInv(ss, steps, i);
    assert Before(ss[i].versions[a].m, ss[i].versions[b].m);
    assert PhasesOrdered(ss[i].versions[a].m.status, ss[i].versions[b].m.status, name);
  }

  /** A completed container leaves that phase only through Failed or Unclaimed. */
  lemma {:induction false} CompletedLeavesThroughFailure(
    ss: seq<State>, steps: seq<Step>, i: nat, a: nat, b: nat, name: string)
    requires IsRun(ss, steps) && i < |ss| && a <= b < |ss[i].versions|
    requires PhaseOf(ss[i].versions[a].m.status, name) == Some(Completed)
    requires forall c :: a <= c <= b ==> PhaseOf(ss[i].versions[c].m.status, name) !in {Some(Failed), Some(Unclaimed)}
    ensures PhaseOf(ss[i].versions[b].m.status, name) == Some(Completed)
    decreases b
  {
    hide IsRun, PhaseOf, SetPhase, Unique;
    if a < b {
      CompletedLeavesThroughFailure(ss, steps, i, a, b - 1, name);
      PhaseSteps(ss, steps, i, b - 1, name);
    }
  }

  // ---------------------------------------------------------------- who writes what

  predicate WritesStatus(step: Step) {
    step.MarkUnclaimed? || step.EvacStatus? || step.RestoreFailed? || step.FinishRestore? || step.InitStatus?
  }

  /** The target appears exactly with an accepted claim of a pod whose hash is the
      migration's. */
  predicate TargetWritten(s: State, step: Step, m: Migration, m': Migration) {
    && (m'.targetPod != m.targetPod <==> step.Claim? && Accepts(s, step.v))
    && (m'.targetPod != m.targetPod ==> m.targetPod == "" && step.pod == Pod(m'.targetPod, m'.targetNode, m.hash))
  }

  /** RestoreReady appears exactly with the readiness of the target itself, however old the
      version is in which it saw itself claimed. */
  predicate ReadyWritten(s: State, step: Step, m: Migration, m': Migration) {
    && (m'.restoreReady != m.restoreReady <==> step.Ready? && Accepts(s, step.v) && !m.restoreReady)
    && (step.Ready? && Accepts(s, step.v) ==> step.pod.name == m.targetPod && m'.targetIP == step.ip)
    && (m'.targetIP != m.targetIP ==> step.Ready?)
  }

  /** Servers change only by the evacuation of that very container, after the target was
      ready, and are then those of the evacuation. */
  predicate ServersWritten(s: State, step: Step, m: Migration, m': Migration, k: nat) {
    && k < |m.containers| == |m'.containers|
    && (m'.containers[k] != m.containers[k] || m'.live != m.live ==>
          step.EvacSpec? && Accepts(s, step.v) && m.restoreReady && m'.live == step.live)
    && (step.EvacSpec? && Accepts(s, step.v) ==>
          m'.containers[k] ==
            if m.containers[k].name != step.name then m.containers[k]
            else Container(step.name, Some(step.image), if step.live then Some(step.page) else None))
  }

  /** Every change has its writer, over all runs; only status updates touch the status. */
  lemma EveryChangeHasItsWriter(ss: seq<State>, steps: seq<Step>, i: nat, k: nat)
    requires IsRun(ss, steps) && i < |steps|
    requires ss[i].versions != [] && k < |Latest(ss[i]).m.containers|
    ensures ss[i + 1].versions != []
    ensures var m, m', step := Latest(ss[i]).m, Latest(ss[i + 1]).m, steps[i];
      && TargetWritten(ss[i], step, m, m') && ReadyWritten(ss[i], step, m, m') && ServersWritten(ss[i], step, m, m', k)
      && m'.hash == m.hash && (m'.status != m.status ==> WritesStatus(step))
  {
    hide Inv, Enabled, Next, TargetWritten, ReadyWritten, ServersWritten;
    RunsKeepInv(ss, steps, i);
    RunStep(ss, steps, i);
    TargetWriter(ss[i], steps[i]);
    ReadyWriter(ss[i], steps[i]);
    ServersWriter(ss[i], steps[i], k);
  }

  /** A deleted migration is never written again, and a rejected update changes nothing. */
  lemma {:induction false} DeletedIsFrozen(ss: seq<State>, steps: seq<Step>, i: nat, j: nat)
    requires IsRun(ss, steps) && i < j < |ss| && steps[i] == Delete
    ensures ss[j].gone && ss[j].versions == ss[i].versions && ss[j].claims == ss[i].claims
    decreases j
  {
    hide Enabled, Next, Initial;
    if i + 1 < j { DeletedIsFrozen(ss, steps, i, j - 1); }
    RunStep(ss, steps, j - 1);
    GoneStep(ss[j - 1], steps[j - 1]);
  }

  lemma GoneStep(s: State, step: Step)
    requires Enabled(s, step)
    ensures step == Delete ==> Next(s, step) == s.(gone := true)
    ensures s.gone ==> Next(s, step).gone && Next(s, step).versions == s.versions && Next(s, step).claims == s.claims
  {
    hide SetPhase, SetServers, FirstStatus, HasUnclaimed, PhaseOf, Has;
  }

  /** A source that has seen the target ready may evacuate from then on. */
  lemma {:induction false} PreparedMayEvacuate(ss: seq<State>, steps: seq<Step>, i: nat, j: nat)
    requires IsRun(ss, steps) && i < j < |ss| && steps[i].Prepare?
    ensures steps[i].name in ss[j].prepared
    decreases j
  {
    hide SetPhase, SetServers, FirstStatus, HasUnclaimed, PhaseOf, Has, Initial;
    if i + 1 < j { PreparedMayEvacuate(ss, steps, i, j - 1); }
    RunStep(ss, steps, j - 1);
  }

  lemma RunStep(ss: seq<State>, steps: seq<Step>, i: nat)
    requires IsRun(ss, steps) && i < |steps|
    ensures Enabled(ss[i], steps[i]) && ss[i + 1] == Next(ss[i], steps[i])
  {}

  lemma TargetWriter(s: State, step: Step)
    requires Inv(s) && Enabled(s, step)
    ensures var s' := Next(s, step);
      && s'.versions != [] && TargetWritten(s, step, Latest(s).m, Latest(s').m)
      && Latest(s').m.hash == Latest(s).m.hash
  {
    hide SetPhase, SetServers, FirstStatus, HasUnclaimed, PhaseOf, Has, History;
    LatestGood(s);
  }

  lemma ReadyWriter(s: State, step: Step)
    requires Inv(s) && Enabled(s, step)
    ensures var s' := Next(s, step);
      && s'.versions != [] && ReadyWritten(s, step, Latest(s).m, Latest(s').m)
      && (Latest(s').m.status != Latest(s).m.status ==> WritesStatus(step))
  {
    hide SetPhase, SetServers, FirstStatus, HasUnclaimed, PhaseOf, Has, History;
  }

  lemma ServersWriter(s: State, step: Step, k: nat)
    requires Inv(s) && Enabled(s, step) && k < |Latest(s).m.containers|
    ensures var s' := Next(s, step);
      s'.versions != [] && ServersWritten(s, step, Latest(s).m, Latest(s').m, k)
  {
    hide SetPhase, SetServers, FirstStatus, HasUnclaimed, PhaseOf, Has, Inv, Good, Distinct;
    LatestGood(s);
    if step.EvacSpec? {
      PreparedReady(s, step.name);
      SetServersAt(Latest(s).m.containers, step.name, step.image, if step.live then Some(step.page) else None);
    }
  }

  lemma LatestGood(s: State)
    requires Inv(s)
    ensures s.versions != [] && Good(Latest(s)) && Distinct(Latest(s).m.containers)
  {}

  /** The phase an accepted status update leaves behind: a completed container is not set
      running again, a failed one is not completed, and the first phase is Failed exactly for a
      running container that is not migrated live. */
  predicate PhaseOutcome(m: Migration, step: Step, name: string, before: Option<Phase>, after: Option<Phase>) {
    match step
    case MarkUnclaimed(v, n) => n == name ==> after == Some(Unclaimed)
    case EvacStatus(v, n) => n == name ==> before != Some(Completed) && after == Some(Running)
    case RestoreFailed(v, n, seen, pod) => n == name ==> after == Some(Failed)
    case FinishRestore(v, n, ok, seen, pod) =>
      n == name ==> after == (if ok && before != Some(Failed) then Some(Completed) else Some(Failed))
    case InitStatus(running) =>
      && before == None
      && after == (if !Has(m.containers, name) then None
                   else Some(if !m.live && name in running then Failed else Pending))
    case _ => after == before
  }

  lemma StatusOutcome(s: State, step: Step, name: string)
    requires Inv(s) && Enabled(s, step) && Latest(Next(s, step)) != Latest(s)
    ensures PhaseOutcome(Latest(s).m, step, name,
                         PhaseOf(Latest(s).m.status, name), PhaseOf(Latest(Next(s, step)).m.status, name))
  {
    hide SetPhase, SetServers, FirstStatus, HasUnclaimed, PhaseOf, Has, Inv;
    LatestGood(s);
    if step.InitStatus? {
      FirstVersion(s);
      NoPhase(name);
      FirstPhase(Latest(s).m.containers, Latest(s).m.live, step.running, name);
    } else if WritesStatus(step) {
      StatusWritten(s, step, name);
    } else {
      StatusKept(s, step);
    }
  }

  lemma StatusKept(s: State, step: Step)
    requires s.versions != [] && Enabled(s, step) && !WritesStatus(step)
    ensures Next(s, step).versions != [] && Latest(Next(s, step)).m.status == Latest(s).m.status
  {
    hide SetPhase, SetServers, FirstStatus, HasUnclaimed, PhaseOf, Has;
  }

  lemma StatusWritten(s: State, step: Step, name: string)
    requires s.versions != [] && Enabled(s, step) && WritesStatus(step) && !step.InitStatus?
    requires Latest(Next(s, step)) != Latest(s)
    ensures PhaseOutcome(Latest(s).m, step, name,
                         PhaseOf(Latest(s).m.status, name), PhaseOf(Latest(Next(s, step)).m.status, name))
  {
    hide SetPhase, SetServers, FirstStatus, HasUnclaimed, PhaseOf, Has;
    var status := Latest(s).m.status;
    match step
    case MarkUnclaimed(v, n) => SetPhaseFrame(status, n, Unclaimed, name);
    case EvacStatus(v, n) => SetPhaseFrame(status, n, Running, name);
    case RestoreFailed(v, n, seen, pod) => SetPhaseFrame(status, n, Failed, name);
    case FinishRestore(v, n, ok, seen, pod) =>
      SetPhaseFrame(status, n, if ok && PhaseOf(status, n) != Some(Failed) then Completed else Failed, name);
  }

  lemma NoPhase(name: string)
    ensures PhaseOf([], name) == None
  {}

  /** The same over runs: whatever a container's first phase is, the source reconciler wrote it
      before anybody else, and it is Failed exactly for a running container that is not
      migrated live. */
  lemma FirstPhaseInRun(ss: seq<State>, steps: seq<Step>, i: nat, name: string)
    requires IsRun(ss, steps) && i < |steps| && steps[i].InitStatus? && ss[i].versions != [] && Accepts(ss[i], 0)
    requires Has(Latest(ss[i]).m.containers, name)
    ensures ss[i + 1].versions != []
    ensures var m, status := Latest(ss[i]).m, Latest(ss[i + 1]).m.status;
      && m.status == []
      && PhaseOf(status, name) == Some(if !m.live && name in steps[i].running then Failed else Pending)
  {
    hide Inv, PhaseOf, FirstStatus, Has;
    RunsKeepInv(ss, steps, i);
    RunStep(ss, steps, i);
    FirstVersion(ss[i]);
    FirstPhase(Latest(ss[i]).m.containers, Latest(ss[i]).m.live, steps[i].running, name);
  }

  lemma FirstVersion(s: State)
    requires Inv(s) && |s.versions| == 1
    ensures Latest(s).m.status == []
  {}

  // ---------------------------------------------------------------- what does not hold

  /** The state after a list of steps, if they are enabled one after the other. */
  function After(s: State, steps: seq<Step>): Option<State>
    decreases |steps|
  {
    if steps == [] then Some(s)
    else if Enabled(s, steps[0]) then After(Next(s, steps[0]), steps[1..])
    else None
  }

  /** With two containers the flag and the servers can disagree: one evacuated while scaled
      down, then the other one live. */
  lemma MixedEvacsLosePageServer(s: State, pod: Pod, x: string, y: string, image: Server, page: Server)
    requires |s.versions| == 1 && !s.gone && Scheduled(pod) && x != y
    requires s.versions[0].m == Migration(
      false, false, "", "", "", pod.hash, [Container(x, None, None), Container(y, None, None)], [])
    ensures var s' := After(s, [Claim(0, pod), Ready(1, pod, ""), Prepare(2, x), Prepare(2, y)]);
      && s'.Some? && |s'.value.versions| == 3
      && var t := After(s'.value, [EvacSpec(2, x, false, image, page), EvacSpec(3, y, true, image, page)]);
      && t.Some? && t.value.versions != []
      && Latest(t.value).m.live
      && Latest(t.value).m.containers == [Container(x, Some(image), None), Container(y, Some(image), Some(page))]
  {
    var s1 := Next(s, Claim(0, pod));
    var s2 := Next(s1, Ready(1, pod, ""));
    var s3 := Next(s2, Prepare(2, x));
    var s4 := Next(s3, Prepare(2, y));
    AfterFour(s, Claim(0, pod), Ready(1, pod, ""), Prepare(2, x), Prepare(2, y));
    EvacBoth(s4, x, y, image, page);
  }

  lemma AfterFour(s: State, a: Step, b: Step, c: Step, d: Step)
    requires Enabled(s, a) && Enabled(Next(s, a), b) && Enabled(Next(Next(s, a), b), c)
    requires Enabled(Next(Next(Next(s, a), b), c), d)
    ensures After(s, [a, b, c, d]) == Some(Next(Next(Next(Next(s, a), b), c), d))
  {
    hide Enabled, Next;
    var s1 := Next(s, a);
    var s2 := Next(s1, b);
    assert [a, b, c, d][1..] == [b, c, d] && [b, c, d][1..] == [c, d];
    AfterTwo(s2, c, d);
    assert After(s1, [b, c, d]) == After(s2, [c, d]);
  }

  lemma AfterTwo(s: State, a: Step, b: Step)
    requires Enabled(s, a) && Enabled(Next(s, a), b)
    ensures After(s, [a, b]) == Some(Next(Next(s, a), b))
  {
    hide Enabled, Next;
    var s1 := Next(s, a);
    assert After(s1, [b]) == After(Next(s1, b), []);
    assert [a, b][1..] == [b];
  }

  lemma EvacBoth(s: State, x: string, y: string, image: Server, page: Server)
    requires |s.versions| == 3 && !s.gone && x != y && x in s.prepared && y in s.prepared
    requires Latest(s).m.containers == [Container(x, None, None), Container(y, None, None)]
    ensures var t := After(s, [EvacSpec(2, x, false, image, page), EvacSpec(3, y, true, image, page)]);
      && t.Some? && t.value.versions != [] && Latest(t.value).m.live
      && Latest(t.value).m.containers == [Container(x, Some(image), None), Container(y, Some(image), Some(page))]
  {
    var a, b := EvacSpec(2, x, false, image, page), EvacSpec(3, y, true, image, page);
    assert s.versions[2].m.containers[0].name == x;
    var s1 := Next(s, a);
    assert Latest(s1).m.containers == [Container(x, Some(image), None), Container(y, None, None)];
    assert s1.versions[3].m.containers[1].name == y;
    AfterTwo(s, a, b);
    var cs := [Container(x, Some(image), None), Container(y, None, None)];
    assert SetServers(cs[1..], y, image, Some(page)) == [Container(y, Some(image), Some(page))];
  }

  /** Failed is not final: a completed container marked failed runs again on the next
      evacuation. */
  lemma CompletedFailedRunning(s: State, name: string, pod: Pod)
    requires s.versions != [] && !s.gone && name in s.prepared && Scheduled(pod)
    requires Latest(s).m.targetPod == pod.name && Latest(s).m.targetNode == pod.node
    requires Latest(s).m.status == [Status(name, Completed)]
    ensures var v := |s.versions| - 1;
      var t := After(s, [RestoreFailed(v, name, v, pod), EvacStatus(v + 1, name)]);
      t.Some? && t.value.versions != [] && PhaseOf(Latest(t.value).m.status, name) == Some(Running)
  {
    var v := |s.versions| - 1;
    var s1 := Next(s, RestoreFailed(v, name, v, pod));
    assert Latest(s1).m.status == [Status(name, Failed)];
    AfterTwo(s, RestoreFailed(v, name, v, pod), EvacStatus(v + 1, name));
  }
}
