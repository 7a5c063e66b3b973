/** The code that edits a migration object and waits for one, against the functions of the
    protocol. */
module MigrationClient {
  import opened Migration
  import MigrationTheorems
  import opened Options

  /** A decoded migration object that a client edits before it writes it back. */
  class Object {
    var containers: seq<Container>
    var status: seq<Status>

    constructor (m: Migration)
      ensures containers == m.containers && status == m.status
    {
      containers, status := m.containers, m.status;
    }

    method SetOrUpdateContainerStatus(name: string, phase: Phase)
      modifies `status
      ensures status == SetPhase(old(status), name, phase)
    {
      var i := 0;
      while i < |status|
        invariant i <= |status| && status == old(status)
        invariant forall j :: 0 <= j < i ==> status[j].name != name
      {
        if status[i].name == name {
          SetPhaseFirst(status, name, phase, i);
          status := status[i := Status(name, phase)];
          return;
        }
        i := i + 1;
      }
      SetPhaseFirst(status, name, phase, i);
      status := status + [Status(name, phase)];
    }

    method GetContainerStatus(name: string) returns (phase: Option<Phase>)
      ensures phase == PhaseOf(status, name)
    {
      var i := 0;
      while i < |status|
        invariant i <= |status| && PhaseOf(status, name) == PhaseOf(status[i..], name)
      {
        if status[i].name == name { return Some(status[i].phase); }
        i := i + 1;
      }
      return None;
    }

    method HasUnclaimedContainer() returns (found: bool)
      ensures found == HasUnclaimed(status)
    {
      var i := 0;
      while i < |status|
        invariant i <= |status| && forall j :: 0 <= j < i ==> status[j].phase != Unclaimed
      {
        if status[i].phase == Unclaimed { return true; }
        i := i + 1;
      }
      return false;
    }

    /** `updateContainerSpec` with the update of Evac. */
    method UpdateContainerSpec(name: string, image: Server, page: Option<Server>) returns (found: bool)
      modifies `containers
      ensures found == Has(old(containers), name)
      ensures containers == SetServers(old(containers), name, image, page)
    {
      var i := 0;
      ghost var cs := containers;
      while i < |containers|
        invariant i <= |cs| && containers == cs
        invariant forall j :: 0 <= j < i ==> cs[j].name != name
      {
        if containers[i].name == name {
          containers := containers[i := Container(name, Some(image), page)];
          SetServersFirst(cs, name, image, page, i);
          assert cs[i].name == name;
          return true;
        }
        i := i + 1;
      }
      SetServersFirst(cs, name, image, page, i);
      return false;
    }
  }

  lemma {:induction false} SetPhaseFirst(status: seq<Status>, name: string, phase: Phase, i: nat)
    requires i <= |status| && forall j :: 0 <= j < i ==> status[j].name != name
    requires i < |status| ==> status[i].name == name
    ensures SetPhase(status, name, phase) ==
      if i == |status| then status + [Status(name, phase)] else status[i := Status(name, phase)]
  {
    if i > 0 { SetPhaseFirst(status[1..], name, phase, i - 1); }
  }

  lemma {:induction false} SetServersFirst(cs: seq<Container>, name: string, image: Server, page: Option<Server>,
                                           i: nat)
    requires i <= |cs| && (forall j :: 0 <= j < i ==> cs[j].name != name) && (i < |cs| ==> cs[i].name == name)
    ensures SetServers(cs, name, image, page) == if i == |cs| then cs else cs[i := Container(name, Some(image), page)]
  {
    if i > 0 { SetServersFirst(cs[1..], name, image, page, i - 1); }
  }

  /** The status written by `prepareMigrationSource`. */
  method PrepareMigrationSource(m: Migration, running: set<string>) returns (status: seq<Status>)
    ensures |status| == |m.containers|
    ensures forall k :: 0 <= k < |status| ==> status[k].name == m.containers[k].name
    ensures forall k :: 0 <= k < |status| ==>
      && (status[k].phase == Failed <==> !m.live && m.containers[k].name in running)
      && (status[k].phase == Pending <==> m.live || m.containers[k].name !in running)
    ensures status == FirstStatus(m.containers, m.live, running)
  {
    status := [];
    var i := 0;
    while i < |m.containers|
      invariant i <= |m.containers| && status == FirstStatus(m.containers[..i], m.live, running)
    {
      assert m.containers[..i + 1][..i] == m.containers[..i];
      if !m.live && m.containers[i].name in running {
        status := status + [Status(m.containers[i].name, Failed)];
      } else {
        status := status + [Status(m.containers[i].name, Pending)];
      }
      i := i + 1;
    }
    assert m.containers[..i] == m.containers;
    FirstStatusCovers(m.containers, m.live, running);
  }

  lemma FirstStatusCovers(cs: seq<Container>, live: bool, running: set<string>)
    ensures var status := FirstStatus(cs, live, running);
      && |status| == |cs|
      && forall k :: 0 <= k < |cs| ==>
        && status[k].name == cs[k].name
        && status[k].phase == if !live && cs[k].name in running then Failed else Pending
  {
    hide FirstStatus;
    if cs == [] {
      FirstStatusEmpty(live, running);
    } else {
      FirstStatusAt(cs, live, running, 0);
    }
    forall k | 0 <= k < |cs|
      ensures FirstStatus(cs, live, running)[k].name == cs[k].name
      ensures FirstStatus(cs, live, running)[k].phase == if !live && cs[k].name in running then Failed else Pending
    {
      FirstStatusAt(cs, live, running, k);
    }
  }

  lemma FirstStatusEmpty(live: bool, running: set<string>)
    ensures FirstStatus([], live, running) == []
  {}

  /** No container of that name has an image server. */
  predicate NoImage(m: Migration, name: string) {
    forall k :: 0 <= k < |m.containers| && m.containers[k].name == name ==> m.containers[k].image.None?
  }

  /** Restore's wait, over the versions its polls return: it leaves with the container of the
      first poll that shows an image server, and fails only if none does. */
  method AwaitServers(polls: seq<Migration>, name: string) returns (at: nat, container: Option<Container>)
    ensures at <= |polls| && (container.Some? <==> at < |polls|)
    ensures forall i :: 0 <= i < at ==> NoImage(polls[i], name)
    ensures container.Some? ==>
      container.value in polls[at].containers && container.value.name == name && container.value.image.Some?
  {
    at := 0;
    while at < |polls|
      invariant at <= |polls| && forall i :: 0 <= i < at ==> NoImage(polls[i], name)
    {
      container := Serving(polls[at], name);
      if container.Some? { return; }
      at := at + 1;
    }
    return at, None;
  }

  /** Restore's wait in any run of the protocol, whose polls return versions as old as they
      like: when it ends, the target was ready and claimed, and the page server is there
      exactly if this container was evacuated live. With one container that is what the live
      flag says. */
  method AwaitServersInRun(polls: seq<Migration>, name: string, ghost ss: seq<State>, ghost steps: seq<Step>,
                           ghost i: nat, ghost vs: seq<nat>)
    returns (at: nat, container: Option<Container>)
    requires IsRun(ss, steps) && i < |ss| && |vs| == |polls|
    requires forall n :: 0 <= n < |polls| ==> vs[n] < |ss[i].versions| && polls[n] == ss[i].versions[vs[n]].m
    ensures at <= |polls| && (container.Some? <==> at < |polls|) && forall n :: 0 <= n < at ==> NoImage(polls[n], name)
    ensures container.Some? ==>
      var m, evacs := polls[at], ss[i].versions[vs[at]].evacs;
      && container.value.name == name && container.value.image.Some?
      && m.restoreReady && m.targetPod != "" && name in evacs && (container.value.page.Some? <==> evacs[name])
      && (|m.containers| == 1 ==> (m.live <==> container.value.page.Some?))
  {
    hide IsRun;
    at, container := AwaitServers(polls, name);
    if container.Some? {
      ghost var k :| 0 <= k < |polls[at].containers| && polls[at].containers[k] == container.value;
      MigrationTheorems.ServersInOrder(ss, steps, i, vs[at], k);
      MigrationTheorems.LiveNeedsAgreement(ss, steps, i, vs[at], k);
    }
  }

  /** The condition of that wait, as the source writes it. */
  method Serving(m: Migration, name: string) returns (container: Option<Container>)
    ensures container.Some? ==>
      container.value in m.containers && container.value.name == name && container.value.image.Some?
    ensures container.None? ==> NoImage(m, name)
  {
    var k := 0;
    while k < |m.containers|
      invariant k <= |m.containers|
      invariant forall j :: 0 <= j < k && m.containers[j].name == name ==> m.containers[j].image.None?
    {
      var c := m.containers[k];
      if c.name == name && ((m.live && c.page.Some? && c.image.Some?) || c.image.Some?) {
        return Some(c);
      }
      k := k + 1;
    }
    return None;
  }
}
