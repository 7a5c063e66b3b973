/** What the migration protocol guarantees over every run and every interleaving of stale
    reads: a claim is final and unique, servers are published in order, an unclaimed
    migration stays unclaimed, and phases only move in the allowed directions. */
module MigrationProof {
  import opened Migration
  import opened Options

  // ---------------------------------------------------------------- the invariant

  /** What holds of every version ever stored. */
  ghost predicate Good(v: Version) {
    && (v.m.targetNode != "" <==> v.m.targetPod != "")
    && (v.m.restoreReady ==> v.m.targetPod != "")
    && Unique(Names(v.m.status))
    && ServersOk(v.m.containers, v.m.restoreReady, v.evacs)
    && LiveOk(v.m.containers, v.m.live, v.evacs)
  }

  /** An image server is there only after an evacuation, which needs RestoreReady, and the
      page server next to it exactly if that evacuation was live. */
  predicate ServersOk(cs: seq<Container>, ready: bool, evacs: map<string, bool>) {
    forall k :: 0 <= k < |cs| && cs[k].image.Some? ==>
      ready && cs[k].name in evacs && (cs[k].page.Some? <==> evacs[cs[k].name])
  }

  /** The live flag is that of the last evacuation, of whichever container. */
  ghost predicate LiveOk(cs: seq<Container>, live: bool, evacs: map<string, bool>) {
    && Distinct(cs)
    && (forall name :: name in evacs ==> Has(cs, name))
    && (evacs != map[] ==> exists name :: name in evacs && evacs[name] == live)
  }

  /** What is never undone between a version and a later one. */
  ghost predicate Before(a: Migration, b: Migration) {
    && a.hash == b.hash
    && (a.targetPod != "" ==> b.targetPod == a.targetPod && b.targetNode == a.targetNode)
    && (a.restoreReady ==> b.restoreReady)
    && (a.targetNode == "" && HasUnclaimed(a.status) ==> b.targetNode == "" && HasUnclaimed(b.status))
    && (forall name :: PhasesOrdered(a.status, b.status, name))
  }

  /** Pending can only be the first phase, and a phase never disappears. */
  predicate PhasesOrdered(a: seq<Status>, b: seq<Status>, name: string) {
    PhaseOf(a, name).Some? ==>
      PhaseOf(b, name).Some? && (PhaseOf(a, name) != Some(Pending) ==> PhaseOf(b, name) != Some(Pending))
  }

  ghost predicate ClaimsInv(m: Migration, claims: seq<Pod>) {
    if m.targetPod == "" then claims == []
    else |claims| == 1 && claims[0].name == m.targetPod && claims[0].node == m.targetNode && claims[0].hash == m.hash
  }

  predicate Ended(phase: Option<Phase>) {
    phase == Some(Completed) || phase == Some(Failed) || phase == Some(Unclaimed)
  }

  /** What a version changes of the one before: at most one container's phase, once there is
      a status, and a completed one only to failed or unclaimed. */
  ghost predicate Follows(a: seq<Status>, b: seq<Status>) {
    && (forall name :: PhaseOf(a, name) == Some(Completed) ==> Ended(PhaseOf(b, name)))
    && (a == [] || a == b || exists name, phase :: b == SetPhase(a, name, phase))
  }

  ghost predicate History(vs: seq<Version>) {
    && (forall i :: 0 <= i < |vs| ==> Good(vs[i]))
    && (forall i, j :: 0 <= i <= j < |vs| ==> Before(vs[i].m, vs[j].m))
    && (forall i :: 0 <= i < |vs| - 1 ==> Follows(vs[i].m.status, vs[i + 1].m.status))
  }

  ghost predicate Inv(s: State) {
    && s.versions != [] && s.versions[0].m.status == []
    && History(s.versions)
    && (s.prepared != {} ==> Latest(s).m.restoreReady)
    && ClaimsInv(Latest(s).m, s.claims)
  }

  lemma BeforeTrans(a: Migration, b: Migration, c: Migration)
    requires Before(a, b) && Before(b, c)
    ensures Before(a, c)
  {
    hide HasUnclaimed, PhaseOf;
    forall name ensures PhasesOrdered(a.status, c.status, name) {
      assert PhasesOrdered(a.status, b.status, name) && PhasesOrdered(b.status, c.status, name);
    }
  }

  lemma SpecOnly(a: Migration, b: Migration)
    requires b.status == a.status && b.hash == a.hash && (a.restoreReady ==> b.restoreReady)
    requires a.targetPod != "" ==> b.targetPod == a.targetPod && b.targetNode == a.targetNode
    requires a.targetNode == "" && HasUnclaimed(a.status) ==> b.targetNode == ""
    ensures Before(a, b)
  {
    hide HasUnclaimed, PhaseOf;
  }

  lemma StatusOnly(a: Migration, status: seq<Status>, name: string, phase: Phase)
    requires status == SetPhase(a.status, name, phase)
    requires phase != Pending && (PhaseOf(a.status, name) == Some(Completed) ==> phase != Running)
    requires phase == Unclaimed || a.targetNode != ""
    ensures Before(a, a.(status := status)) && Follows(a.status, status)
  {
    hide HasUnclaimed, PhaseOf, SetPhase;
    if phase == Unclaimed { SetPhaseUnclaimed(a.status, name); }
    forall other ensures PhasesOrdered(a.status, status, other)
      && (PhaseOf(a.status, other) == Some(Completed) ==> Ended(PhaseOf(status, other)))
    {
      SetPhaseFrame(a.status, name, phase, other);
    }
  }

  /** Storing a good version that follows the current one keeps the invariant. */
  lemma StoreKeeps(s: State, n: Version, claims: seq<Pod>)
    requires Inv(s) && Good(n) && Before(Latest(s).m, n.m) && Follows(Latest(s).m.status, n.m.status)
    requires ClaimsInv(n.m, claims)
    ensures Inv(s.(versions := s.versions + [n], claims := claims))
  {
    hide Good, Before, Follows, ClaimsInv, HasUnclaimed, History;
    assert Latest(s).m.restoreReady ==> n.m.restoreReady by { BeforeReady(Latest(s).m, n.m); }
    HistoryGrows(s.versions, n);
  }

  lemma HistoryGrows(vs: seq<Version>, n: Version)
    requires vs != [] && History(vs) && Good(n)
    requires Before(vs[|vs| - 1].m, n.m) && Follows(vs[|vs| - 1].m.status, n.m.status)
    ensures History(vs + [n])
  {
    hide Good, Before, Follows;
    var vs' := vs + [n];
    BeforeRefl(n.m);
    forall i, j | 0 <= i <= j < |vs'| ensures Before(vs'[i].m, vs'[j].m) {
      if i < |vs| <= j { BeforeTrans(vs[i].m, vs[|vs| - 1].m, n.m); }
    }
    forall i | 0 <= i < |vs'| - 1 ensures Follows(vs'[i].m.status, vs'[i + 1].m.status) {
      if i < |vs| - 1 { assert Follows(vs[i].m.status, vs[i + 1].m.status); }
    }
  }

  lemma BeforeReady(a: Migration, b: Migration)
    requires Before(a, b)
    ensures a.restoreReady ==> b.restoreReady
  {}

  lemma BeforeRefl(a: Migration)
    ensures Before(a, a)
  {}

  lemma StatusKeeps(s: State, name: string, phase: Phase)
    requires Inv(s) && phase != Pending && (phase == Unclaimed || Latest(s).m.targetNode != "")
    requires PhaseOf(Latest(s).m.status, name) == Some(Completed) ==> phase != Running
    ensures var m := Latest(s).m.(status := SetPhase(Latest(s).m.status, name, phase));
      Inv(s.(versions := s.versions + [Latest(s).(m := m)]))
  {
    hide Before, Follows, SetPhase, HasUnclaimed, PhaseOf, ServersOk, LiveOk;
    var status := SetPhase(Latest(s).m.status, name, phase);
    var n := Latest(s).(m := Latest(s).m.(status := status));
    StatusOnly(Latest(s).m, status, name, phase);
    assert Good(Latest(s));
    SetPhaseUnique(Latest(s).m.status, name, phase);
    StoreKeeps(s, n, s.claims);
  }

  lemma SpecKeeps(s: State, n: Version, claims: seq<Pod>)
    requires Inv(s) && n.evacs == Latest(s).evacs && n.m.containers == Latest(s).m.containers
    requires n.m.status == Latest(s).m.status && n.m.live == Latest(s).m.live
    requires Before(Latest(s).m, n.m) && ClaimsInv(n.m, claims)
    requires (n.m.targetNode != "" <==> n.m.targetPod != "") && (n.m.restoreReady ==> n.m.targetPod != "")
    ensures Inv(s.(versions := s.versions + [n], claims := claims))
  {
    hide Before, HasUnclaimed, ClaimsInv, LiveOk;
    assert Good(Latest(s));
    BeforeReady(Latest(s).m, n.m);
    FollowsRefl(n.m.status);
    StoreKeeps(s, n, claims);
  }

  lemma FollowsRefl(status: seq<Status>)
    ensures Follows(status, status)
  {}

  lemma EvacServers(cs: seq<Container>, live: bool, evacs: map<string, bool>, name: string, image: Server,
                    page: Option<Server>)
    requires Has(cs, name) && (page.Some? <==> live) && Distinct(cs)
    requires ServersOk(cs, true, evacs) && forall x :: x in evacs ==> Has(cs, x)
    ensures ServersOk(SetServers(cs, name, image, page), true, evacs[name := live])
    ensures LiveOk(SetServers(cs, name, image, page), live, evacs[name := live])
  {
    hide SetServers;
    SetServersAt(cs, name, image, page);
    var r := SetServers(cs, name, image, page);
    forall x | x in evacs[name := live] ensures Has(r, x) {
      var k :| 0 <= k < |cs| && cs[k].name == x;
      assert r[k].name == x;
    }
    assert name in evacs[name := live];
  }

  lemma EvacKeeps(s: State, name: string, live: bool, image: Server, page: Option<Server>)
    requires Inv(s) && Latest(s).m.restoreReady && Has(Latest(s).m.containers, name) && (page.Some? <==> live)
    ensures var Version(m, evacs) := Latest(s);
      var m' := m.(live := live, containers := SetServers(m.containers, name, image, page));
      Inv(s.(versions := s.versions + [Version(m', evacs[name := live])]))
  {
    hide Before, HasUnclaimed, SetServers, Has, ServersOk;
    var Version(m, evacs) := Latest(s);
    var n := Version(m.(live := live, containers := SetServers(m.containers, name, image, page)), evacs[name := live]);
    assert Good(Latest(s));
    SpecOnly(m, n.m);
    FollowsRefl(m.status);
    EvacServers(m.containers, live, evacs, name, image, page);
    StoreKeeps(s, n, s.claims);
  }

  /** A target seen in any version, however old, is still the target. */
  lemma TargetSeen(s: State, seen: nat, pod: Pod)
    requires Inv(s) && seen < |s.versions| && pod.name != "" && s.versions[seen].m.targetPod == pod.name
    ensures Latest(s).m.targetPod == pod.name && Latest(s).m.targetNode != ""
  {
    hide Follows, HasUnclaimed;
    assert Before(s.versions[seen].m, Latest(s).m) && Good(s.versions[seen]);
  }

  lemma ReadySeen(s: State, v: nat)
    requires Inv(s) && v < |s.versions| && s.versions[v].m.restoreReady
    ensures Latest(s).m.restoreReady
  {
    assert Before(s.versions[v].m, Latest(s).m);
  }

  lemma ReadyHasTarget(s: State)
    requires Inv(s) && Latest(s).m.restoreReady
    ensures Latest(s).m.targetPod != "" && Latest(s).m.targetNode != ""
  {
    assert Good(Latest(s));
  }

  lemma InitStatusKeeps(s: State, status: seq<Status>)
    requires Inv(s) && |s.versions| == 1 && Unique(Names(status))
    ensures Inv(s.(versions := s.versions + [Latest(s).(m := Latest(s).m.(status := status))]))
  {
    var n := Latest(s).(m := Latest(s).m.(status := status));
    assert Good(Latest(s));
    assert Before(Latest(s).m, n.m);
    StoreKeeps(s, n, s.claims);
  }

  lemma InvKept(s: State, step: Step)
    requires Inv(s) && Enabled(s, step)
    ensures Inv(Next(s, step))
  {
    hide Inv, Good, Before, HasUnclaimed, SetPhase, PhaseOf, SetServers, FirstStatus, Has, Names, Unique, ClaimsInv;
    match step
    case Claim(v, pod) =>
      if Accepts(s, v) { ClaimKeeps(s, pod); }
    case Ready(v, pod, ip) =>
      if Accepts(s, v) { ReadyKeeps(s, v, pod, ip); }
    case Prepare(v, name) => PrepareKeeps(s, v, name);
    case MarkUnclaimed(v, name) =>
      if Accepts(s, v) { StatusKeeps(s, name, Unclaimed); }
    case EvacSpec(v, name, live, image, page) =>
      if Accepts(s, v) {
        PreparedReady(s, name);
        EvacKeeps(s, name, live, image, if live then Some(page) else None);
      }
    case EvacStatus(v, name) =>
      if Accepts(s, v) && PhaseOf(s.versions[v].m.status, name) != Some(Completed) {
        PreparedReady(s, name);
        ReadyHasTarget(s);
        StatusKeeps(s, name, Running);
      }
    case RestoreFailed(v, name, seen, pod) =>
      if Accepts(s, v) {
        TargetSeen(s, seen, pod);
        StatusKeeps(s, name, Failed);
      }
    case FinishRestore(v, name, ok, seen, pod) =>
      if Accepts(s, v) {
        TargetSeen(s, seen, pod);
        var failed := PhaseOf(s.versions[v].m.status, name) == Some(Failed) || !ok;
        StatusKeeps(s, name, if failed then Failed else Completed);
      }
    case InitStatus(running) =>
      if Accepts(s, 0) {
        ContainersDistinct(s);
        FirstStatusNames(Latest(s).m.containers, Latest(s).m.live, running);
        InitStatusKeeps(s, FirstStatus(Latest(s).m.containers, Latest(s).m.live, running));
      }
    case Finalizer(v) =>
      if Accepts(s, v) { FinalizerKeeps(s); }
    case Delete => GoneKeeps(s);
  }

  lemma ContainersDistinct(s: State)
    requires Inv(s)
    ensures Distinct(Latest(s).m.containers)
  {
    assert Good(Latest(s));
  }

  lemma GoneKeeps(s: State)
    requires Inv(s)
    ensures Inv(s.(gone := true))
  {}

  lemma PrepareKeeps(s: State, v: nat, name: string)
    requires Inv(s) && v < |s.versions| && s.versions[v].m.restoreReady
    ensures Inv(s.(prepared := s.prepared + {name}))
  {
    hide Good, HasUnclaimed;
    ReadySeen(s, v);
  }

  lemma PreparedReady(s: State, name: string)
    requires Inv(s) && name in s.prepared
    ensures Latest(s).m.restoreReady
  {
    hide Good, Before, HasUnclaimed;
  }

  lemma ClaimKeeps(s: State, pod: Pod)
    requires Inv(s) && Scheduled(pod) && Latest(s).m.MatchesPod(pod) && !Latest(s).m.Claimed()
    ensures var m := Latest(s).m.(targetPod := pod.name, targetNode := pod.node);
      Inv(s.(versions := s.versions + [Latest(s).(m := m)], claims := s.claims + [pod]))
  {
    hide Before;
    assert Good(Latest(s));
    var m := Latest(s).m.(targetPod := pod.name, targetNode := pod.node);
    SpecOnly(Latest(s).m, m);
    SpecKeeps(s, Latest(s).(m := m), s.claims + [pod]);
  }

  lemma ReadyKeeps(s: State, v: nat, pod: Pod, ip: string)
    requires Inv(s) && Accepts(s, v) && Scheduled(pod) && s.versions[v].m.ClaimedAndMatchesPod(pod)
    ensures Inv(s.(versions := s.versions + [Latest(s).(m := Latest(s).m.(restoreReady := true, targetIP := ip))]))
  {
    hide Before, HasUnclaimed;
    assert Good(Latest(s));
    var m := Latest(s).m.(restoreReady := true, targetIP := ip);
    SpecOnly(Latest(s).m, m);
    SpecKeeps(s, Latest(s).(m := m), s.claims);
  }

  lemma FinalizerKeeps(s: State)
    requires Inv(s)
    ensures Inv(s.(versions := s.versions + [Latest(s)]))
  {
    hide HasUnclaimed;
    assert Good(Latest(s)) && Before(Latest(s).m, Latest(s).m);
    FollowsRefl(Latest(s).m.status);
    StoreKeeps(s, Latest(s), s.claims);
  }
}
