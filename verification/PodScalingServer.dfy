/** The two writes of `handlePod` (manager/status.go) as code, each one step of the machine. */
module PodScalingServer {
  import opened PodScaling
  import opened PodScalingProof

  class Subscriber {
    var versions: seq<Version>
    ghost var pending: set<Resize>

    /** Read some version, run the handler, put the containers back and write the rest. */
    method FirstWrite(v: nat, name: string, phase: Phase) returns (ok: bool, after: seq<Container>)
      requires v < |versions|
      modifies this
      ensures State(versions, pending) == Next(old(State(versions, pending)), WriteAnnotations(v, name, phase))
      ensures ok ==> |versions| == v + 2 && Resize(v + 1, after, name, phase) in pending
      ensures !ok ==> unchanged(this)
    {
      var pod := new PodObject(versions[v].pod);
      var containersBefore := pod.containers;
      after := [];
      ok := pod.Reconcile(name, phase);
      if !ok { return; }
      after := pod.containers;
      pod.containers := containersBefore;
      if v + 1 != |versions| { return false, after; }
      versions := versions + [Version(Pod(pod.containers, pod.cpu, pod.memory), versions[v].last)];
      pending := pending + {Resize(v + 1, after, name, phase)};
    }

    /** The resize, or the update the source falls back to: only the containers differ from
        what the first write stored. */
    method SecondWrite(v: nat, after: seq<Container>, name: string, phase: Phase) returns (ok: bool)
      requires v < |versions| && Resize(v, after, name, phase) in pending
      modifies `versions
      ensures State(versions, pending) ==
        Next(old(State(versions, pending)), WriteRequests(Resize(v, after, name, phase)))
      ensures ok == (v + 1 == old(|versions|))
    {
      if v + 1 != |versions| { return false; }
      var pod := versions[v].pod;
      versions := versions + [Version(Pod(after, pod.cpu, pod.memory), Noted(versions[v].last, name, phase))];
      return true;
    }
  }
}
