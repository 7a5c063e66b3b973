/** What scaling guarantees about the requests: they are always those of the last phase
    written. */
module PodScalingTheorems {
  import opened PodScaling
  import opened PodScalingProof

  /** For a pod that has no annotations yet they record exactly its requests. */
  lemma AnnotationsAreTheRequests(pod: Pod, k: nat)
    requires Distinct(pod.containers) && pod.cpu.Absent? && pod.memory.Absent? && k < |pod.containers|
    ensures var a, c := Annotated(pod), pod.containers[k];
      && a.cpu.Values? && c.name in a.cpu.m && a.cpu.m[c.name] == Q(c.requests, CPU)
      && a.memory.Values? && c.name in a.memory.m && a.memory.m[c.name] == Q(c.requests, MEMORY)
      && Original(pod, k) == c.requests && Consistent(pod)
  {
    CollectedAt(pod.containers, CPU, k);
    CollectedAt(pod.containers, MEMORY, k);
  }

  /** In every version a container has its originals if the last phase written for it is
      RUNNING, the scaled-down form if it is SCALED_DOWN, and what it started with if there
      is none; keys, other resources and the set of non-zero requests never change. */
  lemma RequestsFollowPhase(ss: seq<State>, steps: seq<Step>, pod: Pod, i: nat, a: nat, k: nat)
    requires IsRun(ss, steps, pod) && Consistent(pod) && !Broken(pod)
    requires i < |ss| && a < |ss[i].versions| && k < |pod.containers|
    ensures var Version(p, last) := ss[i].versions[a];
      && |p.containers| == |pod.containers|
      && var r, name := p.containers[k].requests, pod.containers[k].name;
      && (name !in last ==> r == pod.containers[k].requests)
      && (name in last && last[name].RUNNING? ==> r == Original(pod, k))
      && (name in last && last[name].SCALED_DOWN? ==> r == Shrunk(Original(pod, k)))
      && SameShape(r, pod.containers[k].requests)
  {
    hide IsRun, Enabled, Next, Annotated, BothAgree, Original, SameShape, Shrunk;
    RunsKeepInv(ss, steps, pod, i);
    assert VersionOk(pod, ss[i].versions[a]);
    FormShape(pod, k, ss[i].versions[a].last);
  }

  /** No version and no pending resize of a pod that cannot be parsed differs from it. */
  predicate Untouched(o: Pod, s: State) {
    && (forall i :: 0 <= i < |s.versions| ==> s.versions[i].pod.containers == o.containers && Broken(s.versions[i].pod))
    && (forall r :: r in s.pending ==> r.containers == o.containers)
  }

  lemma UntouchedKept(o: Pod, s: State, step: Step)
    requires Untouched(o, s) && Enabled(s, step)
    ensures Untouched(o, Next(s, step))
  {
    hide Collected, NewRequests, Initial;
    if step.WriteAnnotations? {
      var p := Annotated(s.versions[step.v].pod);
      assert !Fails(p, step.name) ==> Wanted(p, step.name, step.phase) == p.containers;
    }
  }

  /** A pod whose annotations cannot be parsed is never resized. */
  lemma {:induction false} BrokenPodsStay(ss: seq<State>, steps: seq<Step>, pod: Pod, i: nat)
    requires IsRun(ss, steps, pod) && Broken(pod) && i < |ss|
    ensures Untouched(pod, ss[i])
  {
    hide Next, Enabled;
    if i > 0 {
      BrokenPodsStay(ss, steps, pod, i - 1);
      UntouchedKept(pod, ss[i - 1], steps[i - 1]);
    }
  }

  // ---------------------------------------------------------------- sequences of events

  datatype Event = Event(name: string, phase: Phase)

  /** An event whose two writes both get through, as two steps of the machine. */
  function Deliver(s: State, e: Event): State {
    if s.versions == [] then s else
      var v := |s.versions| - 1;
      var s1 := Next(s, WriteAnnotations(v, e.name, e.phase));
      var r := Resize(v + 1, Wanted(Annotated(Latest(s).pod), e.name, e.phase), e.name, e.phase);
      if Enabled(s1, WriteRequests(r)) then Next(s1, WriteRequests(r)) else s1
  }

  function DeliverAll(s: State, es: seq<Event>): State {
    if es == [] then s else Deliver(DeliverAll(s, es[..|es| - 1]), es[|es| - 1])
  }

  /** The last phase among the RUNNING and SCALED_DOWN events of one container. */
  function LastPhase(es: seq<Event>, name: string): Phase {
    if es == [] then OTHER
    else if es[|es| - 1].name == name && !es[|es| - 1].phase.OTHER? then es[|es| - 1].phase
    else LastPhase(es[..|es| - 1], name)
  }

  lemma NotBroken(o: Pod, v: Version, name: string)
    requires VersionOk(o, v) && !Broken(o)
    ensures !Fails(Annotated(v.pod), name)
  {
    hide Forms, Collected;
  }

  lemma DeliverKept(o: Pod, s: State, e: Event)
    requires Inv(o, s) && Consistent(o) && !Broken(o)
    ensures Inv(o, Deliver(s, e)) && Latest(Deliver(s, e)).last == Noted(Latest(s).last, e.name, e.phase)
  {
    hide Inv, Annotated, Wanted, Fails, Consistent, Broken, Noted;
    LatestOk(o, s);
    NotBroken(o, Latest(s), e.name);
    var v := |s.versions| - 1;
    var s1 := Next(s, WriteAnnotations(v, e.name, e.phase));
    InvKept(o, s, WriteAnnotations(v, e.name, e.phase));
    var r := Resize(v + 1, Wanted(Annotated(Latest(s).pod), e.name, e.phase), e.name, e.phase);
    assert r in s1.pending;
    InvKept(o, s1, WriteRequests(r));
  }

  lemma LatestOk(o: Pod, s: State)
    requires Inv(o, s)
    ensures s.versions != [] && VersionOk(o, Latest(s))
  {}

  lemma {:induction false} DeliveredLast(o: Pod, es: seq<Event>, k: nat)
    requires Consistent(o) && !Broken(o) && k < |o.containers|
    ensures var s := DeliverAll(State([Version(o, map[])], {}), es);
      && Inv(o, s)
      && var last, name := Latest(s).last, o.containers[k].name;
      if name in last then last[name] == LastPhase(es, name) && !last[name].OTHER? else LastPhase(es, name).OTHER?
  {
    hide Deliver, Inv, Consistent, Broken;
    var start := State([Version(o, map[])], {});
    if es == [] {
      StartOk(o);
    } else {
      DeliveredLast(o, es[..|es| - 1], k);
      var s := DeliverAll(start, es[..|es| - 1]);
      LatestOk(o, s);
      DeliverKept(o, s, es[|es| - 1]);
      LatestOk(o, Deliver(s, es[|es| - 1]));
    }
  }

  lemma StartOk(o: Pod)
    requires Consistent(o)
    ensures Inv(o, State([Version(o, map[])], {}))
  {
    InvStart(o, State([Version(o, map[])], {}));
  }

  /** The requests of container `k` after all these events are those of its last RUNNING or
      SCALED_DOWN event, or what it started with if there is none. */
  predicate FollowsLast(o: Pod, es: seq<Event>, k: nat)
    requires k < |o.containers|
  {
    var s := DeliverAll(State([Version(o, map[])], {}), es);
    && s.versions != [] && |Latest(s).pod.containers| == |o.containers|
    && var r := Latest(s).pod.containers[k].requests;
    match LastPhase(es, o.containers[k].name)
      case RUNNING => r == Original(o, k)
      case SCALED_DOWN => r == Shrunk(Original(o, k))
      case OTHER => r == o.containers[k].requests
  }

  /** After any sequence of events over any containers, the requests are those of the last
      RUNNING or SCALED_DOWN event, whatever came before. */
  lemma LastEventDecides(o: Pod, es: seq<Event>, k: nat)
    requires Consistent(o) && !Broken(o) && k < |o.containers|
    ensures FollowsLast(o, es, k)
  {
    hide DeliverAll, Inv, Consistent, Original, Shrunk, LastPhase, Annotated;
    DeliveredLast(o, es, k);
    var s := DeliverAll(State([Version(o, map[])], {}), es);
    LatestOk(o, s);
  }

  // ---------------------------------------------------------------- the exact condition

  /** What an event that gets through makes of the pod. */
  lemma DeliverRescales(s: State, e: Event)
    requires s.versions != [] && !Broken(Annotated(Latest(s).pod))
    ensures var p, s' := Annotated(Latest(s).pod), Deliver(s, e);
      s'.versions != [] && Latest(s').pod == p.(containers := Wanted(p, e.name, e.phase))
  {
    hide Annotated, Wanted;
    var v := |s.versions| - 1;
    var r := Resize(v + 1, Wanted(Annotated(Latest(s).pod), e.name, e.phase), e.name, e.phase);
    assert r in Next(s, WriteAnnotations(v, e.name, e.phase)).pending;
  }

  /** A container and annotations that disagree show it after at most two events. */
  lemma DisagreementShows(c: Container, cpu: Annotation, memory: Annotation)
    requires cpu.Values? && memory.Values? && !BothAgree(c, cpu, memory)
    ensures var c1 := Rescaled(c, cpu, memory, c.name, SCALED_DOWN);
      var c2 := Rescaled(c1, cpu, memory, c.name, RUNNING);
      c1.requests != Shrunk(Initial(c, cpu, memory)) || c2.requests != Initial(c, cpu, memory)
  {
    var original := Initial(c, cpu, memory);
    var c1 := Rescaled(c, cpu, memory, c.name, SCALED_DOWN);
    var c2 := Rescaled(c1, cpu, memory, c.name, RUNNING);
    if !Agrees(c, cpu, CPU, SCALED_DOWN_CPU) {
      assert Q(c1.requests, CPU) != Q(Shrunk(original), CPU) || Q(c2.requests, CPU) != Q(original, CPU);
    } else {
      assert Q(c1.requests, MEMORY) != Q(Shrunk(original), MEMORY) || Q(c2.requests, MEMORY) != Q(original, MEMORY);
    }
  }

  /** Any pod that is not consistent leaves the forms with SCALED_DOWN, or with RUNNING after
      it. */
  lemma DisagreementBreaks(o: Pod, k: nat)
    requires Distinct(o.containers) && !Broken(o) && k < |o.containers|
    requires !BothAgree(o.containers[k], o.cpu, o.memory)
    ensures var down, up := Event(o.containers[k].name, SCALED_DOWN), Event(o.containers[k].name, RUNNING);
      !FollowsLast(o, [down], k) || !FollowsLast(o, [down, up], k)
  {
    hide Rescaled, Shrunk, Initial, Collected, Deliver, BothAgree;
    var start, a, c := State([Version(o, map[])], {}), Annotated(o), o.containers[k];
    var down, up := Event(c.name, SCALED_DOWN), Event(c.name, RUNNING);
    var s1 := Deliver(start, down);
    DeliverRescales(start, down);
    assert Annotated(Latest(s1).pod) == Latest(s1).pod;
    var s2 := Deliver(s1, up);
    DeliverRescales(s1, up);
    DeliverTwo(start, down, up);
    LastOfTwo(down, up);
    AnnotatedOriginal(o, k);
    AnnotatedDisagrees(o, k);
    DisagreementShows(c, a.cpu, a.memory);
  }

  lemma DeliverTwo(s: State, d: Event, u: Event)
    ensures DeliverAll(s, [d]) == Deliver(s, d) && DeliverAll(s, [d, u]) == Deliver(Deliver(s, d), u)
  {
    hide Deliver;
    assert [d][..0] == [] && [d, u][..1] == [d];
    assert DeliverAll(s, []) == s;
    assert DeliverAll(s, [d]) == Deliver(DeliverAll(s, []), d);
  }

  lemma LastOfTwo(d: Event, u: Event)
    requires d.name == u.name && d.phase.SCALED_DOWN? && u.phase.RUNNING?
    ensures LastPhase([d], d.name) == SCALED_DOWN && LastPhase([d, u], d.name) == RUNNING
  {}

  lemma AnnotatedDisagrees(o: Pod, k: nat)
    requires k < |o.containers| && !Broken(o) && !BothAgree(o.containers[k], o.cpu, o.memory)
    ensures Annotated(o).cpu.Values? && Annotated(o).memory.Values?
    ensures !BothAgree(o.containers[k], Annotated(o).cpu, Annotated(o).memory)
  {}

  /** The requests follow the last event, for every sequence of events and every container,
      exactly for the consistent pods. */
  lemma ExactlyConsistentPodsFollow(o: Pod)
    requires Distinct(o.containers) && !Broken(o)
    ensures Consistent(o) <==> forall es, k :: 0 <= k < |o.containers| ==> FollowsLast(o, es, k)
  {
    hide FollowsLast, BothAgree;
    if Consistent(o) {
      forall es, k | 0 <= k < |o.containers| ensures FollowsLast(o, es, k) { LastEventDecides(o, es, k); }
    } else {
      var k :| 0 <= k < |o.containers| && !BothAgree(o.containers[k], o.cpu, o.memory);
      DisagreementBreaks(o, k);
    }
  }
}
