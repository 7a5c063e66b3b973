/** The migration protocol: any number of pod reconcilers, node services and shims race on
    one Migration object through an API server that keeps versions
    (api/runtime/v1/types.go, manager/node/service.go, manager/pod_controller.go,
    manager/migration_controller.go, shim/evac.go). */
module Migration {
  import opened Options

  datatype Phase = Pending | Running | Completed | Failed | Unclaimed
  type Server = nat

  datatype Container = Container(name: string, image: Option<Server>, page: Option<Server>)
  datatype Status = Status(name: string, phase: Phase)

  datatype Migration = Migration(
    live: bool, restoreReady: bool, targetNode: string, targetPod: string, targetIP: string,
    hash: string, containers: seq<Container>, status: seq<Status>)
  {
    /** A target node, or a container marked unclaimed, closes the migration to claims. */
    predicate Claimed() {
      targetNode != "" || HasUnclaimed(status)
    }

    predicate MatchesPod(pod: Pod) {
      hash == pod.hash
    }

    predicate ClaimedAndMatchesPod(pod: Pod) {
      targetPod == pod.name && Claimed()
    }
  }

  datatype Pod = Pod(name: string, node: string, hash: string)

  /** Kubernetes gives every scheduled pod a name and a node. */
  predicate Scheduled(pod: Pod) {
    pod.name != "" && pod.node != ""
  }

  predicate HasUnclaimed(status: seq<Status>) {
    exists i :: 0 <= i < |status| && status[i].phase == Unclaimed
  }

  // ---------------------------------------------------------------- status lists

  /** The phase of a container, if it has one. */
  function PhaseOf(status: seq<Status>, name: string): Option<Phase> {
    if status == [] then None
    else if status[0].name == name then Some(status[0].phase)
    else PhaseOf(status[1..], name)
  }

  /** setOrUpdateContainerStatus, with an update that sets the phase. */
  function SetPhase(status: seq<Status>, name: string, phase: Phase): seq<Status> {
    if status == [] then [Status(name, phase)]
    else if status[0].name == name then [Status(name, phase)] + status[1..]
    else [status[0]] + SetPhase(status[1..], name, phase)
  }

  function Names(status: seq<Status>): seq<string> {
    if status == [] then [] else [status[0].name] + Names(status[1..])
  }

  predicate Unique(names: seq<string>) {
    forall i, j :: 0 <= i < j < |names| ==> names[i] != names[j]
  }

  /** A status update sets one phase, leaves all others alone, and keeps the order and
      uniqueness of names. */
  lemma {:induction false} SetPhaseFrame(status: seq<Status>, name: string, phase: Phase, other: string)
    ensures PhaseOf(SetPhase(status, name, phase), other) ==
      if other == name then Some(phase) else PhaseOf(status, other)
    ensures PhaseOf(status, name).Some? ==> Names(SetPhase(status, name, phase)) == Names(status)
    ensures PhaseOf(status, name).None? ==>
      name !in Names(status) && Names(SetPhase(status, name, phase)) == Names(status) + [name]
  {
    if status != [] && status[0].name != name {
      SetPhaseFrame(status[1..], name, phase, other);
    }
  }

  lemma SetPhaseUnique(status: seq<Status>, name: string, phase: Phase)
    requires Unique(Names(status))
    ensures Unique(Names(SetPhase(status, name, phase)))
  {
    SetPhaseFrame(status, name, phase, name);
  }

  lemma {:induction false} SetPhaseUnclaimed(status: seq<Status>, name: string)
    ensures HasUnclaimed(SetPhase(status, name, Unclaimed))
  {
    var s := SetPhase(status, name, Unclaimed);
    if status != [] && status[0].name != name {
      SetPhaseUnclaimed(status[1..], name);
      var rest := SetPhase(status[1..], name, Unclaimed);
      var i :| 0 <= i < |rest| && rest[i].phase == Unclaimed;
      assert s[i + 1].phase == Unclaimed;
    } else {
      assert s[0].phase == Unclaimed;
    }
  }

  // ---------------------------------------------------------------- spec containers

  /** updateContainerSpec as Evac uses it: the servers of the first container of that name. */
  function SetServers(cs: seq<Container>, name: string, image: Server, page: Option<Server>): seq<Container> {
    if cs == [] then []
    else if cs[0].name == name then [Container(name, Some(image), page)] + cs[1..]
    else [cs[0]] + SetServers(cs[1..], name, image, page)
  }

  /** Container names of a pod are distinct. */
  predicate Distinct(cs: seq<Container>) {
    forall i, j :: 0 <= i < j < |cs| ==> cs[i].name != cs[j].name
  }

  predicate Has(cs: seq<Container>, name: string) {
    exists k :: 0 <= k < |cs| && cs[k].name == name
  }

  lemma {:induction false} SetServersAt(cs: seq<Container>, name: string, image: Server, page: Option<Server>)
    requires Distinct(cs)
    ensures var r := SetServers(cs, name, image, page);
      && |r| == |cs|
      && forall k :: 0 <= k < |cs| ==>
        r[k] == if cs[k].name == name then Container(name, Some(image), page) else cs[k]
  {
    if cs != [] && cs[0].name != name {
      SetServersAt(cs[1..], name, image, page);
      var r, r' := SetServers(cs, name, image, page), SetServers(cs[1..], name, image, page);
      forall k | 0 <= k < |cs|
        ensures r[k] == if cs[k].name == name then Container(name, Some(image), page) else cs[k]
      {
        if k > 0 { assert cs[1..][k - 1] == cs[k]; }
      }
    }
  }

  /** The status a source reconciler writes first: a running container that is not migrated
      live has failed already, every other one is pending. */
  function FirstStatus(cs: seq<Container>, live: bool, running: set<string>): seq<Status> {
    if cs == [] then []
    else FirstStatus(cs[..|cs| - 1], live, running) +
         [Status(cs[|cs| - 1].name, if !live && cs[|cs| - 1].name in running then Failed else Pending)]
  }

  /** Entry `k` is that of container `k`: failed exactly if it runs and is not migrated live. */
  lemma {:induction false} FirstStatusAt(cs: seq<Container>, live: bool, running: set<string>, k: nat)
    requires k < |cs|
    ensures |FirstStatus(cs, live, running)| == |cs|
    ensures FirstStatus(cs, live, running)[k].name == cs[k].name
    ensures FirstStatus(cs, live, running)[k].phase == if !live && cs[k].name in running then Failed else Pending
  {
    if k < |cs| - 1 {
      FirstStatusAt(cs[..|cs| - 1], live, running, k);
    } else if k > 0 {
      FirstStatusAt(cs[..|cs| - 1], live, running, 0);
    }
  }

  lemma {:induction false} PhaseOfAppend(status: seq<Status>, e: Status, name: string)
    ensures PhaseOf(status + [e], name) ==
      if PhaseOf(status, name).Some? then PhaseOf(status, name) else if e.name == name then Some(e.phase) else None
  {
    if status != [] {
      PhaseOfAppend(status[1..], e, name);
      assert (status + [e])[1..] == status[1..] + [e];
    } else {
      assert [e][1..] == [] && status + [e] == [e];
    }
  }

  /** The first phase of a name: none if there is no such container. */
  lemma {:induction false} FirstPhase(cs: seq<Container>, live: bool, running: set<string>, name: string)
    ensures PhaseOf(FirstStatus(cs, live, running), name) ==
      if !Has(cs, name) then None else Some(if !live && name in running then Failed else Pending)
  {
    if cs != [] {
      var before, c := cs[..|cs| - 1], cs[|cs| - 1];
      FirstPhase(before, live, running, name);
      var e := Status(c.name, if !live && c.name in running then Failed else Pending);
      PhaseOfAppend(FirstStatus(before, live, running), e, name);
      assert cs == before + [c];
      HasAppend(before, c, name);
    }
  }

  lemma HasAppend(cs: seq<Container>, c: Container, name: string)
    ensures Has(cs + [c], name) <==> Has(cs, name) || c.name == name
  {
    if Has(cs, name) {
      var k :| 0 <= k < |cs| && cs[k].name == name;
      assert (cs + [c])[k].name == name;
    }
    if c.name == name { assert (cs + [c])[|cs|].name == name; }
    if Has(cs + [c], name) {
      var k :| 0 <= k < |cs + [c]| && (cs + [c])[k].name == name;
      assert k < |cs| ==> cs[k].name == name;
    }
  }

  lemma {:induction false} FirstStatusNames(cs: seq<Container>, live: bool, running: set<string>)
    requires Distinct(cs)
    ensures var r := FirstStatus(cs, live, running);
      |r| == |cs| && (forall k :: 0 <= k < |cs| ==> r[k].name == cs[k].name) && Unique(Names(r))
  {
    var r := FirstStatus(cs, live, running);
    if cs != [] {
      var n := |cs| - 1;
      FirstStatusNames(cs[..n], live, running);
      var r' := FirstStatus(cs[..n], live, running);
      assert forall k :: 0 <= k < n ==> r[k] == r'[k];
    }
    NamesAt(r);
    assert forall k :: 0 <= k < |r| ==> Names(r)[k] == cs[k].name;
  }

  lemma {:induction false} NamesAt(status: seq<Status>)
    ensures |Names(status)| == |status| && forall k :: 0 <= k < |status| ==> Names(status)[k] == status[k].name
  {
    if status != [] {
      NamesAt(status[1..]);
      forall k | 0 <= k < |status| ensures Names(status)[k] == status[k].name {
        if k > 0 { assert status[1..][k - 1] == status[k]; }
      }
    }
  }

  // ---------------------------------------------------------------- the API server

  /** A stored version: the object, and for each container whether its last evacuation was
      live (history). */
  datatype Version = Version(m: Migration, evacs: map<string, bool>)

  /** All versions ever stored; the last is current. A deleted object accepts no update. */
  datatype State = State(
    versions: seq<Version>,
    gone: bool,
    prepared: set<string>,   // containers whose PrepareEvac has returned
    claims: seq<Pod>)        // pods that claimed, in order (history)

  function Latest(s: State): Version
    requires s.versions != []
  {
    s.versions[|s.versions| - 1]
  }

  /** An update carries the version it was computed from and succeeds only on the current one. */
  predicate Accepts(s: State, v: nat) {
    !s.gone && v + 1 == |s.versions|
  }

  function Store(s: State, v: nat, n: Version): State {
    if Accepts(s, v) then s.(versions := s.versions + [n]) else s
  }

  /** The spec update leaves the status alone, and the status update the spec. */
  function UpdateSpec(s: State, v: nat, m: Migration): State
    requires v < |s.versions|
  {
    Store(s, v, Version(m.(status := s.versions[v].m.status), s.versions[v].evacs))
  }

  function UpdateStatus(s: State, v: nat, status: seq<Status>): State
    requires v < |s.versions|
  {
    Store(s, v, s.versions[v].(m := s.versions[v].m.(status := status)))
  }

  // ---------------------------------------------------------------- the steps

  datatype Step =
    | Claim(v: nat, pod: Pod)
    | Ready(v: nat, pod: Pod, ip: string)
    | Prepare(v: nat, name: string)
    | MarkUnclaimed(v: nat, name: string)
    | EvacSpec(v: nat, name: string, live: bool, image: Server, page: Server)
    | EvacStatus(v: nat, name: string)
    | RestoreFailed(v: nat, name: string, seen: nat, pod: Pod)
    | FinishRestore(v: nat, name: string, ok: bool, seen: nat, pod: Pod)
    | InitStatus(running: set<string>)
    | Finalizer(v: nat)
    | Delete

  /** What a client has seen before it writes; every read may be stale. */
  predicate Enabled(s: State, step: Step) {
    match step
    case Claim(v, pod) =>
      && v < |s.versions| && Scheduled(pod)
      && s.versions[v].m.MatchesPod(pod) && !s.versions[v].m.Claimed()
    case Ready(v, pod, ip) => v < |s.versions| && Scheduled(pod) && s.versions[v].m.ClaimedAndMatchesPod(pod)
    case Prepare(v, name) => v < |s.versions| && s.versions[v].m.restoreReady
    case MarkUnclaimed(v, name) => v < |s.versions|
    case EvacSpec(v, name, live, image, page) =>
      v < |s.versions| && name in s.prepared && Has(s.versions[v].m.containers, name)
    case EvacStatus(v, name) => v < |s.versions| && name in s.prepared
    case RestoreFailed(v, name, seen, pod) =>
      v < |s.versions| && seen < |s.versions| && Scheduled(pod) && s.versions[seen].m.ClaimedAndMatchesPod(pod)
    case FinishRestore(v, name, ok, seen, pod) =>
      v < |s.versions| && seen < |s.versions| && Scheduled(pod) && s.versions[seen].m.targetPod == pod.name
    case InitStatus(running) => s.versions != []
    case Finalizer(v) => v < |s.versions|
    case Delete => true
  }

  function Next(s: State, step: Step): State
    requires Enabled(s, step)
  {
    match step
    case Claim(v, pod) =>
      UpdateSpec(s, v, s.versions[v].m.(targetPod := pod.name, targetNode := pod.node))
        .(claims := if Accepts(s, v) then s.claims + [pod] else s.claims)
    case Ready(v, pod, ip) => UpdateSpec(s, v, s.versions[v].m.(restoreReady := true, targetIP := ip))
    case Prepare(v, name) => s.(prepared := s.prepared + {name})
    case MarkUnclaimed(v, name) => UpdateStatus(s, v, SetPhase(s.versions[v].m.status, name, Unclaimed))
    case EvacSpec(v, name, live, image, page) =>
      var m := s.versions[v].m;
      var cs := SetServers(m.containers, name, image, if live then Some(page) else None);
      Store(s, v, Version(m.(live := live, containers := cs), s.versions[v].evacs[name := live]))
    case EvacStatus(v, name) =>
      var status := s.versions[v].m.status;
      if PhaseOf(status, name) == Some(Completed) then s else UpdateStatus(s, v, SetPhase(status, name, Running))
    case RestoreFailed(v, name, seen, pod) => UpdateStatus(s, v, SetPhase(s.versions[v].m.status, name, Failed))
    case FinishRestore(v, name, ok, seen, pod) =>
      var status := s.versions[v].m.status;
      var phase := if PhaseOf(status, name) == Some(Failed) || !ok then Failed else Completed;
      UpdateStatus(s, v, SetPhase(status, name, phase))
    case InitStatus(running) =>
      UpdateStatus(s, 0, FirstStatus(s.versions[0].m.containers, s.versions[0].m.live, running))
    case Finalizer(v) => UpdateSpec(s, v, s.versions[v].m)
    case Delete => s.(gone := true)
  }

  /** newMigration: no target, no servers, no status; container names are distinct. */
  ghost predicate Initial(s: State) {
    && |s.versions| == 1 && !s.gone && s.prepared == {} && s.claims == []
    && var Version(m, evacs) := s.versions[0];
    && evacs == map[] && !m.restoreReady && m.targetNode == "" && m.targetPod == "" && m.status == []
    && Distinct(m.containers)
    && forall k :: 0 <= k < |m.containers| ==> m.containers[k].image.None? && m.containers[k].page.None?
  }

  ghost predicate IsRun(ss: seq<State>, steps: seq<Step>) {
    && |ss| == |steps| + 1 && Initial(ss[0])
    && forall i :: 0 <= i < |steps| ==> Enabled(ss[i], steps[i]) && ss[i + 1] == Next(ss[i], steps[i])
  }
}
