/** In-place scaling of pod requests (manager/pod_scaler.go). The original requests live in
    two annotations; the requests themselves are switched between the originals and the
    scaled-down form. */
module PodScaling {
  const CPU := "cpu"
  const MEMORY := "memory"
  // in thousandths: 1m of a CPU, 1Ki of memory
  const SCALED_DOWN_CPU := 1
  const SCALED_DOWN_MEMORY := 1_024_000

  type Requests = map<string, int>
  datatype Phase = RUNNING | SCALED_DOWN | OTHER

  datatype Container = Container(name: string, requests: Requests)

  /** A JSON annotation with a quantity per container name. */
  datatype Annotation = Absent | Invalid | Values(m: map<string, int>)

  datatype Pod = Pod(containers: seq<Container>, cpu: Annotation, memory: Annotation)

  /** A missing request and an empty quantity compare equal. */
  function Q(r: Requests, key: string): int {
    if key in r then r[key] else 0
  }

  predicate Distinct(cs: seq<Container>) {
    forall i, j :: 0 <= i < j < |cs| ==> cs[i].name != cs[j].name
  }

  // ---------------------------------------------------------------- annotations

  /** SetAnnotations: the requests of every container, unless an annotation is there. */
  function Collected(cs: seq<Container>, key: string): map<string, int> {
    if cs == [] then map[] else Collected(cs[..|cs| - 1], key)[cs[|cs| - 1].name := Q(cs[|cs| - 1].requests, key)]
  }

  function Annotated(pod: Pod): Pod {
    pod.(cpu := if pod.cpu.Absent? then Values(Collected(pod.containers, CPU)) else pod.cpu,
         memory := if pod.memory.Absent? then Values(Collected(pod.containers, MEMORY)) else pod.memory)
  }

  lemma {:induction false} CollectedAt(cs: seq<Container>, key: string, k: nat)
    requires Distinct(cs) && k < |cs|
    ensures cs[k].name in Collected(cs, key) && Collected(cs, key)[cs[k].name] == Q(cs[k].requests, key)
  {
    if k < |cs| - 1 { CollectedAt(cs[..|cs| - 1], key, k); }
  }

  // ---------------------------------------------------------------- requests

  function Content(a: Annotation): map<string, int> {
    if a.Values? then a.m else map[]
  }

  function Override(r: Requests, key: string, m: map<string, int>, name: string): Requests {
    if name in m && m[name] != 0 then r[key := m[name]] else r
  }

  /** InitialRequests: the non-zero annotated quantities replace the current ones. */
  function Initial(c: Container, cpu: Annotation, memory: Annotation): Requests {
    Override(Override(c.requests, CPU, Content(cpu), c.name), MEMORY, Content(memory), c.name)
  }

  function Shrunk(r: Requests): Requests {
    var r' := if Q(r, CPU) != 0 then r[CPU := SCALED_DOWN_CPU] else r;
    if Q(r', MEMORY) != 0 then r'[MEMORY := SCALED_DOWN_MEMORY] else r'
  }

  /** Scaled down, a non-zero CPU request is 1m and a non-zero memory request 1Ki; missing and
      zero ones stay, and so does every other resource. */
  lemma ShrunkIs(r: Requests)
    ensures Q(Shrunk(r), "cpu") == if Q(r, "cpu") != 0 then 1 else 0
    ensures Q(Shrunk(r), "memory") == if Q(r, "memory") != 0 then 1024 * 1000 else 0
    ensures Shrunk(r).Keys == r.Keys
    ensures forall key :: key in r && key != "cpu" && key != "memory" ==> Shrunk(r)[key] == r[key]
  {}

  /** The originals are the annotated quantities where there are non-zero ones, and the current
      requests elsewhere. */
  lemma InitialIs(c: Container, cpu: Annotation, memory: Annotation)
    ensures Q(Initial(c, cpu, memory), "cpu") ==
      if cpu.Values? && c.name in cpu.m && cpu.m[c.name] != 0 then cpu.m[c.name]
      else Q(c.requests, "cpu")
    ensures Q(Initial(c, cpu, memory), "memory") ==
      if memory.Values? && c.name in memory.m && memory.m[c.name] != 0 then memory.m[c.name]
      else Q(c.requests, "memory")
    ensures forall key :: key != "cpu" && key != "memory" ==>
      && (key in Initial(c, cpu, memory) <==> key in c.requests)
      && (key in c.requests ==> Initial(c, cpu, memory)[key] == c.requests[key])
  {}

  function NewRequests(initial: Requests, current: Requests, phase: Phase): Requests {
    match phase
    case SCALED_DOWN => Shrunk(current)
    case RUNNING => initial
    case OTHER => current
  }

  predicate UpToDate(initial: Requests, current: Requests, phase: Phase) {
    match phase
    case SCALED_DOWN => Q(current, CPU) in {SCALED_DOWN_CPU, 0} && Q(current, MEMORY) in {SCALED_DOWN_MEMORY, 0}
    case RUNNING => Q(current, CPU) == Q(initial, CPU) && Q(current, MEMORY) == Q(initial, MEMORY)
    case OTHER => true
  }

  /** Skipping an up-to-date container and rewriting it are the same. */
  lemma UpToDateIsNoChange(c: Container, cpu: Annotation, memory: Annotation, phase: Phase)
    requires UpToDate(Initial(c, cpu, memory), c.requests, phase)
    ensures NewRequests(Initial(c, cpu, memory), c.requests, phase) == c.requests
  {
    var r, m, n := c.requests, Content(cpu), Content(memory);
    if phase.RUNNING? {
      var r' := Override(r, CPU, m, c.name);
      assert Q(Initial(c, cpu, memory), CPU) == Q(r', CPU);
      assert r' == r;
    }
  }

  predicate Resourced(c: Container, name: string) {
    c.name == name && (CPU in c.requests || MEMORY in c.requests)
  }

  /** What reconcileContainerResources makes of one container. */
  function Rescaled(c: Container, cpu: Annotation, memory: Annotation, name: string, phase: Phase): Container {
    if Resourced(c, name) then c.(requests := NewRequests(Initial(c, cpu, memory), c.requests, phase)) else c
  }

  predicate Broken(pod: Pod) {
    pod.cpu.Invalid? || pod.memory.Invalid?
  }

  /** The containers the handler asks for, given an annotated pod. */
  function Wanted(pod: Pod, name: string, phase: Phase): seq<Container> {
    seq(|pod.containers|, i requires 0 <= i < |pod.containers| =>
      Rescaled(pod.containers[i], pod.cpu, pod.memory, name, phase))
  }

  /** Parsing the annotations fails only for a container that gets that far. */
  predicate Fails(pod: Pod, name: string) {
    Broken(pod) && exists i :: 0 <= i < |pod.containers| && Resourced(pod.containers[i], name)
  }

  // ---------------------------------------------------------------- the code

  class PodObject {
    var containers: seq<Container>
    var cpu: Annotation
    var memory: Annotation

    constructor (pod: Pod)
      ensures Value() == pod
    {
      containers, cpu, memory := pod.containers, pod.cpu, pod.memory;
    }

    function Value(): Pod
      reads this
    {
      Pod(containers, cpu, memory)
    }

    method SetAnnotations()
      modifies `cpu, `memory
      ensures Value() == Annotated(old(Value()))
    {
      var cpus: map<string, int>, mems: map<string, int>, i := map[], map[], 0;
      while i < |containers|
        invariant i <= |containers| && unchanged(this)
        invariant cpus == Collected(containers[..i], CPU) && mems == Collected(containers[..i], MEMORY)
      {
        assert containers[..i + 1][..i] == containers[..i];
        var c := containers[i];
        cpus, mems := cpus[c.name := Q(c.requests, CPU)], mems[c.name := Q(c.requests, MEMORY)];
        i := i + 1;
      }
      assert containers[..i] == containers;
      if cpu.Absent? { cpu := Values(cpus); }
      if memory.Absent? { memory := Values(mems); }
    }

    /** `reconcileContainerResources`; after an error the pod is thrown away. */
    method Reconcile(name: string, phase: Phase) returns (ok: bool)
      modifies this
      ensures ok == !Fails(Annotated(old(Value())), name)
      ensures ok ==> Value() == Annotated(old(Value())).(containers := Wanted(Annotated(old(Value())), name, phase))
    {
      SetAnnotations();
      ok := Rescale(name, phase);
    }

    method Rescale(name: string, phase: Phase) returns (ok: bool)
      modifies `containers
      ensures ok == !Fails(old(Value()), name)
      ensures ok ==> containers == Wanted(old(Value()), name, phase)
    {
      var i := 0;
      ghost var pod := Value();
      while i < |containers|
        invariant i <= |containers| == |pod.containers|
        invariant Broken(pod) ==> forall j :: 0 <= j < i ==> !Resourced(pod.containers[j], name)
        invariant forall j :: 0 <= j < i ==>
          containers[j] == Rescaled(pod.containers[j], pod.cpu, pod.memory, name, phase)
        invariant forall j :: i <= j < |containers| ==> containers[j] == pod.containers[j]
      {
        var c := containers[i];
        if c.name == name && (CPU in c.requests || MEMORY in c.requests) {
          if cpu.Invalid? || memory.Invalid? {
            assert Resourced(pod.containers[i], name);
            return false;
          }
          var initial := Initial(c, cpu, memory);
          if UpToDate(initial, c.requests, phase) {
            UpToDateIsNoChange(c, cpu, memory, phase);
          } else {
            containers := containers[i := c.(requests := NewRequests(initial, c.requests, phase))];
          }
        }
        i := i + 1;
      }
      assert !Fails(pod, name);
      return true;
    }
  }
}
