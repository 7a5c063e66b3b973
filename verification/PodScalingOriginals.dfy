/** The original requests are never lost, exactly for the pods whose annotations, if they are
    there before the first event, account for every request that a scale-down changes. */
module PodScalingOriginals {
  import opened PodScaling
  import opened PodScalingProof

  /** A request that a scale-down cannot lose: nothing to lose, already scaled down, not
      annotated yet, or annotated. */
  predicate Kept(c: Container, a: Annotation, key: string, scaledDown: int) {
    a.Values? ==> Q(c.requests, key) in {0, scaledDown} || (c.name in a.m && a.m[c.name] != 0)
  }

  /** For any pod, whoever wrote its annotations: scaling container `k` down keeps its
      originals readable if and only if each of its two requests is kept in that sense. */
  lemma ScaleDownKeepsOriginal(pod: Pod, k: nat)
    requires Distinct(pod.containers) && !Broken(pod) && k < |pod.containers|
    ensures var a, c := Annotated(pod), pod.containers[k];
      var p := a.(containers := Wanted(a, c.name, SCALED_DOWN));
      Original(p, k) == Original(pod, k) <==>
      Kept(c, pod.cpu, CPU, SCALED_DOWN_CPU) && Kept(c, pod.memory, MEMORY, SCALED_DOWN_MEMORY)
  {
    hide Collected;
    var a, c := Annotated(pod), pod.containers[k];
    CollectedAt(pod.containers, CPU, k);
    CollectedAt(pod.containers, MEMORY, k);
    AnnotatedOriginal(pod, k);
    var r := Shrunk(c.requests);
    var p := a.(containers := Wanted(a, c.name, SCALED_DOWN));
    if Resourced(c, c.name) {
      assert p.containers[k] == Container(c.name, r);
      ShrunkOriginal(c, a.cpu, a.memory);
      AnnotatedKept(pod, k);
    } else {
      assert p.containers[k] == c;
    }
  }

  lemma AnnotatedKept(pod: Pod, k: nat)
    requires Distinct(pod.containers) && k < |pod.containers|
    ensures var a, c := Annotated(pod), pod.containers[k];
      && Kept(c, a.cpu, CPU, SCALED_DOWN_CPU) == Kept(c, pod.cpu, CPU, SCALED_DOWN_CPU)
      && Kept(c, a.memory, MEMORY, SCALED_DOWN_MEMORY) == Kept(c, pod.memory, MEMORY, SCALED_DOWN_MEMORY)
  {
    CollectedAt(pod.containers, CPU, k);
    CollectedAt(pod.containers, MEMORY, k);
  }

  lemma ShrunkOriginal(c: Container, cpu: Annotation, memory: Annotation)
    requires cpu.Values? && memory.Values?
    ensures Initial(Container(c.name, Shrunk(c.requests)), cpu, memory) == Initial(c, cpu, memory) <==>
      Kept(c, cpu, CPU, SCALED_DOWN_CPU) && Kept(c, memory, MEMORY, SCALED_DOWN_MEMORY)
  {
    var r := Shrunk(c.requests);
    var x, y := Initial(Container(c.name, r), cpu, memory), Initial(c, cpu, memory);
    assert Q(x, CPU) == Q(y, CPU) <==> Kept(c, cpu, CPU, SCALED_DOWN_CPU);
    assert Q(x, MEMORY) == Q(y, MEMORY) <==> Kept(c, memory, MEMORY, SCALED_DOWN_MEMORY);
    assert x.Keys == y.Keys;
    assert forall key :: key in x && key != CPU && key != MEMORY ==> x[key] == y[key];
  }

  predicate AllKept(pod: Pod) {
    forall k :: 0 <= k < |pod.containers| ==> BothKept(pod.containers[k], pod.cpu, pod.memory)
  }

  predicate BothKept(c: Container, cpu: Annotation, memory: Annotation) {
    Kept(c, cpu, CPU, SCALED_DOWN_CPU) && Kept(c, memory, MEMORY, SCALED_DOWN_MEMORY)
  }

  // ---------------------------------------------------------------- one event

  /** Reading the originals off restored requests gives them again. */
  lemma InitialTwice(c: Container, cpu: Annotation, memory: Annotation)
    requires BothKept(c, cpu, memory)
    ensures var o := Container(c.name, Initial(c, cpu, memory));
      Initial(o, cpu, memory) == o.requests && BothKept(o, cpu, memory)
  {}

  lemma ShrunkKept(c: Container, cpu: Annotation, memory: Annotation)
    ensures BothKept(Container(c.name, Shrunk(c.requests)), cpu, memory)
  {}

  /** No event changes what the annotations and the requests stand for. */
  lemma RescaledKept(c: Container, cpu: Annotation, memory: Annotation, name: string, phase: Phase)
    requires cpu.Values? && memory.Values? && BothKept(c, cpu, memory)
    ensures var c' := Rescaled(c, cpu, memory, name, phase);
      && c'.name == c.name && Initial(c', cpu, memory) == Initial(c, cpu, memory) && BothKept(c', cpu, memory)
  {
    hide Initial, Shrunk, Kept;
    if Resourced(c, name) {
      match phase
      case SCALED_DOWN => ShrunkKept(c, cpu, memory); ShrunkOriginal(c, cpu, memory);
      case RUNNING => InitialTwice(c, cpu, memory);
      case OTHER =>
    }
  }

  // ---------------------------------------------------------------- every run

  /** `p` has the containers of `o` and stands for the same originals, safely. */
  ghost predicate Stands(o: Pod, p: Pod) {
    && |p.containers| == |o.containers| && AllKept(p)
    && forall k :: 0 <= k < |o.containers| ==>
      p.containers[k].name == o.containers[k].name && Original(p, k) == Original(o, k)
  }

  ghost predicate ResizeOk(o: Pod, vs: seq<Version>, r: Resize) {
    r.v < |vs| && Recorded(o, vs[r.v].pod) && Stands(o, vs[r.v].pod.(containers := r.containers))
  }

  ghost predicate Inv(o: Pod, s: State) {
    && s.versions != []
    && (forall i :: 0 <= i < |s.versions| ==>
          Stands(o, s.versions[i].pod) && (s.versions[i].pod == o || Recorded(o, s.versions[i].pod)))
    && (forall r :: r in s.pending ==> ResizeOk(o, s.versions, r))
  }

  /** Both annotations are there and hold the originals. */
  predicate Recorded(o: Pod, p: Pod) {
    p.cpu == Annotated(o).cpu && p.memory == Annotated(o).memory
  }

  lemma AnnotatedStands(o: Pod, p: Pod)
    requires Stands(o, p) && Distinct(o.containers)
    ensures Stands(o, Annotated(p))
  {
    hide Original, Kept;
    assert Distinct(p.containers);
    forall k | 0 <= k < |p.containers|
      ensures Original(Annotated(p), k) == Original(o, k)
      ensures BothKept(p.containers[k], Annotated(p).cpu, Annotated(p).memory)
    {
      AnnotatedOriginal(p, k);
      AnnotatedKept(p, k);
      assert BothKept(p.containers[k], p.cpu, p.memory);
    }
  }

  lemma WantedStands(o: Pod, p: Pod, name: string, phase: Phase)
    requires Stands(o, p) && p.cpu.Values? && p.memory.Values?
    ensures Stands(o, p.(containers := Wanted(p, name, phase)))
  {
    hide Kept, Initial, Rescaled;
    var q := p.(containers := Wanted(p, name, phase));
    forall k | 0 <= k < |p.containers|
      ensures q.containers[k].name == o.containers[k].name && Original(q, k) == Original(o, k)
      ensures BothKept(q.containers[k], q.cpu, q.memory)
    {
      assert BothKept(p.containers[k], p.cpu, p.memory);
      RescaledKept(p.containers[k], p.cpu, p.memory, name, phase);
    }
  }

  lemma AnnotatedRecords(o: Pod, p: Pod)
    requires !Broken(o) && (p == o || Recorded(o, p))
    ensures Recorded(o, Annotated(p)) && Annotated(p).cpu.Values? && Annotated(p).memory.Values?
  {}

  lemma InvKept(o: Pod, s: State, step: Step)
    requires Inv(o, s) && Distinct(o.containers) && !Broken(o) && Enabled(s, step)
    ensures Inv(o, Next(s, step))
  {
    hide Stands, Annotated, Wanted, Fails, Distinct, Broken;
    if step.WriteAnnotations? {
      var p := s.versions[step.v].pod;
      AnnotatedStands(o, p);
      AnnotatedRecords(o, p);
      WantedStands(o, Annotated(p), step.name, step.phase);
    }
  }

  lemma {:induction false} RunsKeepInv(ss: seq<State>, steps: seq<Step>, pod: Pod, i: nat)
    requires IsRun(ss, steps, pod) && AllKept(pod) && !Broken(pod) && i < |ss|
    ensures Inv(pod, ss[i])
  {
    hide Next, Enabled, AllKept, Inv, Broken, Distinct;
    if i == 0 {
      InvStart(pod, ss[0]);
    } else {
      RunsKeepInv(ss, steps, pod, i - 1);
      InvKept(pod, ss[i - 1], steps[i - 1]);
    }
  }

  lemma InvStart(pod: Pod, s: State)
    requires IsStart(s, pod) && AllKept(pod)
    ensures Inv(pod, s)
  {}

  /** At every moment of every run the originals can be read off the pod: requests and
      annotations together stand for what they stood for at the start, and either nothing
      has been written or both annotations hold the originals. */
  lemma OriginalsNeverLost(ss: seq<State>, steps: seq<Step>, pod: Pod, i: nat, a: nat, k: nat)
    requires IsRun(ss, steps, pod) && AllKept(pod) && !Broken(pod)
    requires i < |ss| && a < |ss[i].versions| && k < |pod.containers|
    ensures var p := ss[i].versions[a].pod;
      && |p.containers| == |pod.containers| && p.containers[k].name == pod.containers[k].name
      && Original(p, k) == Original(pod, k)
      && (p == pod || (p.cpu == Annotated(pod).cpu && p.memory == Annotated(pod).memory))
  {
    hide IsRun, Original, AllKept, Annotated;
    RunsKeepInv(ss, steps, pod, i);
  }

  /** Any other pod loses them with one event. */
  lemma UnkeptRequestIsLost(pod: Pod, k: nat)
    requires Distinct(pod.containers) && !Broken(pod) && k < |pod.containers|
    requires !BothKept(pod.containers[k], pod.cpu, pod.memory)
    ensures var a, name := Annotated(pod), pod.containers[k].name;
      var s0 := State([Version(pod, map[])], {});
      var s1 := Next(s0, WriteAnnotations(0, name, SCALED_DOWN));
      var r := Resize(1, Wanted(a, name, SCALED_DOWN), name, SCALED_DOWN);
      && IsStart(s0, pod) && Enabled(s1, WriteRequests(r))
      && var p := Latest(Next(s1, WriteRequests(r))).pod;
      && k < |p.containers| && Original(p, k) != Original(pod, k)
  {
    hide Original, Kept, Collected;
    ScaleDownKeepsOriginal(pod, k);
    assert !Broken(Annotated(pod));
  }

  /** A pod without annotations keeps all of them. */
  lemma FreshPodsAreKept(pod: Pod)
    requires pod.cpu.Absent? && pod.memory.Absent?
    ensures AllKept(pod) && !Broken(pod)
  {}
}
