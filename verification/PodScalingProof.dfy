/** The two writes per status event (manager/status.go) against an API server with versions:
    the annotations first, the requests second, each rejected unless the pod is unchanged
    since it was read. Events race, writes are lost, retried and overtaken. */
module PodScalingProof {
  import opened PodScaling

  // ---------------------------------------------------------------- the machine

  /** A stored version, and for each container the phase last written for it (history). */
  datatype Version = Version(pod: Pod, last: map<string, Phase>)

  /** The second write of an event, prepared on version `v`. */
  datatype Resize = Resize(v: nat, containers: seq<Container>, name: string, phase: Phase)

  datatype State = State(versions: seq<Version>, pending: set<Resize>)

  datatype Step =
    | WriteAnnotations(v: nat, name: string, phase: Phase)
    | WriteRequests(r: Resize)
    | Touch(v: nat)   // another client's write to other fields

  function Latest(s: State): Version
    requires s.versions != []
  {
    s.versions[|s.versions| - 1]
  }

  predicate Enabled(s: State, step: Step) {
    match step
    case WriteAnnotations(v, name, phase) => v < |s.versions|
    case WriteRequests(r) => r in s.pending && r.v < |s.versions|
    case Touch(v) => v < |s.versions|
  }

  function Noted(last: map<string, Phase>, name: string, phase: Phase): map<string, Phase> {
    if phase.OTHER? then last else last[name := phase]
  }

  function Next(s: State, step: Step): State
    requires Enabled(s, step)
  {
    match step
    case WriteAnnotations(v, name, phase) =>
      var pod := Annotated(s.versions[v].pod);
      if v + 1 != |s.versions| || Fails(pod, name) then s
      else State(s.versions + [s.versions[v].(pod := pod)],
                 s.pending + {Resize(v + 1, Wanted(pod, name, phase), name, phase)})
    case WriteRequests(r) =>
      if r.v + 1 != |s.versions| then s
      else
        var Version(pod, last) := s.versions[r.v];
        s.(versions := s.versions + [Version(pod.(containers := r.containers), Noted(last, r.name, r.phase))])
    case Touch(v) => if v + 1 != |s.versions| then s else s.(versions := s.versions + [s.versions[v]])
  }

  /** The annotation has a non-zero quantity for a container. */
  predicate Named(a: Annotation, name: string) {
    a.Values? && name in a.m && a.m[name] != 0
  }

  /** An annotation that is there names a container with a non-zero request, unless that is
      the scaled-down one, and does not name a container without. */
  predicate Agrees(c: Container, a: Annotation, key: string, scaledDown: int) {
    a.Values? ==>
      && (Q(c.requests, key) != 0 ==> Named(a, c.name) || Q(c.requests, key) == scaledDown)
      && (Q(c.requests, key) == 0 ==> !Named(a, c.name))
  }

  predicate BothAgree(c: Container, cpu: Annotation, memory: Annotation) {
    Agrees(c, cpu, CPU, SCALED_DOWN_CPU) && Agrees(c, memory, MEMORY, SCALED_DOWN_MEMORY)
  }

  /** A pod without annotations always starts this way. */
  predicate Consistent(pod: Pod) {
    && Distinct(pod.containers)
    && forall k :: 0 <= k < |pod.containers| ==> BothAgree(pod.containers[k], pod.cpu, pod.memory)
  }

  predicate IsStart(s: State, pod: Pod) {
    s == State([Version(pod, map[])], {}) && Distinct(pod.containers)
  }

  ghost predicate IsRun(ss: seq<State>, steps: seq<Step>, pod: Pod) {
    && |ss| == |steps| + 1 && IsStart(ss[0], pod)
    && forall i :: 0 <= i < |steps| ==> Enabled(ss[i], steps[i]) && ss[i + 1] == Next(ss[i], steps[i])
  }

  // ---------------------------------------------------------------- shapes

  /** Same keys, same other resources, same non-zero requests. */
  ghost predicate SameShape(r: Requests, s: Requests) {
    && r.Keys == s.Keys
    && (forall key :: key in r && key != CPU && key != MEMORY ==> r[key] == s[key])
    && (Q(r, CPU) != 0 <==> Q(s, CPU) != 0)
    && (Q(r, MEMORY) != 0 <==> Q(s, MEMORY) != 0)
  }

  function Original(pod: Pod, k: nat): Requests
    requires k < |pod.containers|
  {
    Initial(pod.containers[k], pod.cpu, pod.memory)
  }

  lemma AnnotatedConsistent(pod: Pod)
    requires Consistent(pod)
    ensures Consistent(Annotated(pod))
  {
    hide Collected;
    forall k | 0 <= k < |pod.containers|
      ensures BothAgree(pod.containers[k], Annotated(pod).cpu, Annotated(pod).memory)
    {
      CollectedAt(pod.containers, CPU, k);
      CollectedAt(pod.containers, MEMORY, k);
      assert BothAgree(pod.containers[k], pod.cpu, pod.memory);
    }
  }

  /** Writing the annotations does not change what they and the requests mean. */
  lemma AnnotatedOriginal(pod: Pod, k: nat)
    requires Distinct(pod.containers) && k < |pod.containers|
    ensures Original(Annotated(pod), k) == Original(pod, k)
  {
    hide Collected;
    CollectedAt(pod.containers, CPU, k);
    CollectedAt(pod.containers, MEMORY, k);
    var c := pod.containers[k];
    assert Override(c.requests, CPU, Content(Annotated(pod).cpu), c.name)
        == Override(c.requests, CPU, Content(pod.cpu), c.name);
  }

  /** `r` differs from the requests of `c` at most where an annotation names `c`. */
  ghost predicate Alike(r: Requests, c: Container, cpu: Annotation, memory: Annotation) {
    && SameShape(r, c.requests)
    && (!Named(cpu, c.name) ==> Q(r, CPU) == Q(c.requests, CPU))
    && (!Named(memory, c.name) ==> Q(r, MEMORY) == Q(c.requests, MEMORY))
  }

  /** The originals do not depend on which form the requests are in. */
  lemma InitialOfAlike(r: Requests, c: Container, cpu: Annotation, memory: Annotation)
    requires Alike(r, c, cpu, memory)
    ensures Initial(Container(c.name, r), cpu, memory) == Initial(c, cpu, memory)
  {
    var x, y := Initial(Container(c.name, r), cpu, memory), Initial(c, cpu, memory);
    assert x.Keys == y.Keys;
    forall key | key in x ensures x[key] == y[key] {
      if key == CPU { assert Q(x, CPU) == Q(y, CPU); }
      if key == MEMORY { assert Q(x, MEMORY) == Q(y, MEMORY); }
    }
  }

  lemma InitialAlike(c: Container, cpu: Annotation, memory: Annotation)
    requires BothAgree(c, cpu, memory)
    ensures Alike(Initial(c, cpu, memory), c, cpu, memory)
  {}

  lemma ShrunkAlike(c: Container, cpu: Annotation, memory: Annotation)
    requires BothAgree(c, cpu, memory) && cpu.Values? && memory.Values?
    ensures Alike(Shrunk(Initial(c, cpu, memory)), c, cpu, memory)
  {
    hide Initial;
    InitialAlike(c, cpu, memory);
  }

  lemma ShrunkOfShape(r: Requests, s: Requests)
    requires SameShape(r, s)
    ensures Shrunk(r) == Shrunk(s)
  {}

  // ---------------------------------------------------------------- forms

  /** The requests of container `k` after the phase last written for it. */
  function Form(o: Pod, k: nat, last: map<string, Phase>): Requests
    requires k < |o.containers|
  {
    var c := o.containers[k];
    if c.name !in last || Broken(o) then c.requests
    else match last[c.name]
      case RUNNING => Original(o, k)
      case SCALED_DOWN => Shrunk(Original(o, k))
      case OTHER => c.requests
  }

  function Forms(o: Pod, last: map<string, Phase>): seq<Container> {
    seq(|o.containers|, k requires 0 <= k < |o.containers| => Container(o.containers[k].name, Form(o, k, last)))
  }

  lemma FormAlike(o: Pod, k: nat, last: map<string, Phase>)
    requires Consistent(o) && k < |o.containers| && !Broken(o)
    ensures Alike(Form(o, k, last), o.containers[k], Annotated(o).cpu, Annotated(o).memory)
  {
    hide Alike, Initial, Shrunk, Collected;
    var a, c := Annotated(o), o.containers[k];
    AnnotatedConsistent(o);
    AnnotatedOriginal(o, k);
    assert BothAgree(a.containers[k], a.cpu, a.memory);
    InitialAlike(c, a.cpu, a.memory);
    ShrunkAlike(c, a.cpu, a.memory);
    AlikeRefl(c, a.cpu, a.memory);
  }

  lemma AlikeRefl(c: Container, cpu: Annotation, memory: Annotation)
    ensures Alike(c.requests, c, cpu, memory)
  {}

  lemma AlikeShape(r: Requests, c: Container, cpu: Annotation, memory: Annotation)
    requires Alike(r, c, cpu, memory)
    ensures SameShape(r, c.requests) && r.Keys == c.requests.Keys
  {}

  lemma FormShape(o: Pod, k: nat, last: map<string, Phase>)
    requires Consistent(o) && k < |o.containers| && !Broken(o)
    ensures SameShape(Form(o, k, last), o.containers[k].requests)
  {
    hide Alike, Form, Annotated, SameShape;
    FormAlike(o, k, last);
    AlikeShape(Form(o, k, last), o.containers[k], Annotated(o).cpu, Annotated(o).memory);
  }

  lemma Unresourced(r: Requests, s: Requests)
    requires SameShape(r, s) && CPU !in s && MEMORY !in s
    ensures r == s && Shrunk(r) == s
  {}

  /** One event takes a container from the form of the phases so far to the form of the
      phases with that event. */
  lemma RescaledForm(o: Pod, k: nat, last: map<string, Phase>, name: string, phase: Phase)
    requires Consistent(o) && k < |o.containers| && !Broken(o)
    ensures var a := Annotated(o);
      Rescaled(Container(o.containers[k].name, Form(o, k, last)), a.cpu, a.memory, name, phase)
      == Container(o.containers[k].name, Form(o, k, Noted(last, name, phase)))
  {
    hide SameShape, Alike, Initial, Shrunk, Collected, BothAgree;
    var a, c := Annotated(o), o.containers[k];
    var r, original := Form(o, k, last), Original(o, k);
    FormAlike(o, k, last);
    AlikeShape(r, c, a.cpu, a.memory);
    AnnotatedOriginal(o, k);
    InitialOfAlike(r, c, a.cpu, a.memory);
    FormShape(o, k, map[c.name := RUNNING]);
    if Resourced(c, name) {
      ShrunkOfShape(r, c.requests);
      ShrunkOfShape(original, c.requests);
    } else if c.name == name {
      Unresourced(r, c.requests);
      Unresourced(original, c.requests);
    }
  }

  lemma WantedForms(o: Pod, last: map<string, Phase>, name: string, phase: Phase)
    requires Consistent(o)
    requires !Fails(Annotated(o).(containers := Forms(o, last)), name)
    ensures Wanted(Annotated(o).(containers := Forms(o, last)), name, phase) == Forms(o, Noted(last, name, phase))
  {
    hide Collected, Form, Resourced, Original, NewRequests, Initial;
    var p := Annotated(o).(containers := Forms(o, last));
    var r, t := Wanted(p, name, phase), Forms(o, Noted(last, name, phase));
    forall k | 0 <= k < |o.containers| ensures r[k] == t[k] {
      if Broken(o) {
        assert !Resourced(p.containers[k], name);
        BrokenForm(o, k, last);
        BrokenForm(o, k, Noted(last, name, phase));
      } else {
        RescaledForm(o, k, last, name, phase);
      }
    }
  }

  lemma BrokenForm(o: Pod, k: nat, last: map<string, Phase>)
    requires k < |o.containers| && Broken(o)
    ensures Form(o, k, last) == o.containers[k].requests
  {}

  // ---------------------------------------------------------------- the invariant

  /** Every version shows the forms of the phases written so far, and either nothing has
      been written yet or the annotations are in place. */
  predicate VersionOk(o: Pod, v: Version) {
    && v.pod.containers == Forms(o, v.last)
    && ((v.pod.cpu == Annotated(o).cpu && v.pod.memory == Annotated(o).memory) || (v.pod == o && v.last == map[]))
  }

  predicate ResizeOk(o: Pod, vs: seq<Version>, r: Resize) {
    && r.v < |vs|
    && vs[r.v].pod.cpu == Annotated(o).cpu && vs[r.v].pod.memory == Annotated(o).memory
    && r.containers == Forms(o, Noted(vs[r.v].last, r.name, r.phase))
  }

  predicate Inv(o: Pod, s: State) {
    && s.versions != []
    && (forall i :: 0 <= i < |s.versions| ==> VersionOk(o, s.versions[i]))
    && (forall r :: r in s.pending ==> ResizeOk(o, s.versions, r))
  }

  lemma AnnotatedTwice(o: Pod, v: Version)
    requires VersionOk(o, v)
    ensures Annotated(v.pod) == Annotated(o).(containers := Forms(o, v.last))
  {
    hide Form, Collected;
    assert v.pod == o ==> Annotated(o).containers == Forms(o, v.last);
  }

  lemma AnnotationsKept(o: Pod, s: State, name: string, phase: Phase)
    requires Inv(o, s) && Consistent(o) && !Fails(Annotated(Latest(s).pod), name)
    ensures Inv(o, Next(s, WriteAnnotations(|s.versions| - 1, name, phase)))
  {
    hide Forms, Annotated, Wanted, Fails, Consistent;
    var v := Latest(s);
    assert VersionOk(o, v);
    AnnotatedTwice(o, v);
    WantedForms(o, v.last, name, phase);
    AnnotatedFields(o, Forms(o, v.last));
    var s' := Next(s, WriteAnnotations(|s.versions| - 1, name, phase));
    assert forall r :: r in s.pending ==> s'.versions[r.v] == s.versions[r.v];
  }

  lemma AnnotatedFields(o: Pod, cs: seq<Container>)
    ensures Annotated(o).(containers := cs).cpu == Annotated(o).cpu
    ensures Annotated(o).(containers := cs).memory == Annotated(o).memory
  {}

  lemma InvKept(o: Pod, s: State, step: Step)
    requires Inv(o, s) && Consistent(o) && Enabled(s, step)
    ensures Inv(o, Next(s, step))
  {
    hide Forms, Annotated, Wanted, Fails, Consistent;
    match step
    case WriteAnnotations(v, name, phase) =>
      if v + 1 == |s.versions| && !Fails(Annotated(Latest(s).pod), name) { AnnotationsKept(o, s, name, phase); }
    case WriteRequests(r) =>
      assert ResizeOk(o, s.versions, r);
    case Touch(v) => {}
  }

  lemma {:induction false} RunsKeepInv(ss: seq<State>, steps: seq<Step>, pod: Pod, i: nat)
    requires IsRun(ss, steps, pod) && Consistent(pod) && i < |ss|
    ensures Inv(pod, ss[i])
  {
    hide Next, Enabled, Form, Annotated, Consistent, Inv;
    if i == 0 {
      InvStart(pod, ss[0]);
    } else {
      RunsKeepInv(ss, steps, pod, i - 1);
      InvKept(pod, ss[i - 1], steps[i - 1]);
    }
  }

  lemma InvStart(pod: Pod, s: State)
    requires IsStart(s, pod)
    ensures Inv(pod, s)
  {
    assert Forms(pod, map[]) == pod.containers;
  }
}
