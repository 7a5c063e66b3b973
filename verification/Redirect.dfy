/** Port redirection between the kernel programs and the activator (activator/redirector.c,
    activator/activator.go): four shared maps, packets passing at any moment between the
    updates. */
module Redirect {
  type Port = nat

  /** The eBPF maps, without eviction. */
  datatype Maps = Maps(ingress: map<Port, Port>, egress: map<Port, Port>, disabled: set<Port>, active: set<Port>)

  datatype Packet = Packet(source: Port, dest: Port)

  // ---------------------------------------------------------------- the kernel programs

  function IngressRedirect(m: Maps, p: Packet): Packet {
    if p.dest in m.ingress then
      if p.dest in m.disabled && p.source !in m.active then p else p.(dest := m.ingress[p.dest])
    else p
  }

  function EgressRedirect(m: Maps, p: Packet): Packet {
    if p.source in m.egress then p.(source := m.egress[p.source]) else p
  }

  /** The answer of whoever listens where the packet arrived. */
  function Answer(p: Packet): Packet {
    Packet(p.dest, p.source)
  }

  // ---------------------------------------------------------------- the machine

  datatype Step =
    | PutIngress(app: Port, proxy: Port)
    | PutEgress(proxy: Port, app: Port)
    | Enable(app: Port)
    | Disable(app: Port)
    | Register(source: Port)
    | Remove(source: Port)

  /** A port the kernel can hand out to the proxy of `app`: not one of the container's, and
      not one that another of its ports is redirected to. */
  predicate Free(m: Maps, proxy: Port, app: Port, apps: set<Port>) {
    proxy !in apps && forall a :: a in m.ingress && a != app ==> m.ingress[a] != proxy
  }

  /** Redirected on the way in, not (yet) translated back on the way out. */
  predicate Half(m: Maps, app: Port) {
    app in m.ingress && !(m.ingress[app] in m.egress && m.egress[m.ingress[app]] == app)
  }

  /** `Start` writes the two entries of a port after disabling it, and nothing is enabled
      before it is done. */
  predicate Enabled(m: Maps, step: Step, apps: set<Port>) {
    match step
    case PutIngress(app, proxy) => app in apps && app in m.disabled && Free(m, proxy, app, apps)
    case PutEgress(proxy, app) => app in m.ingress && m.ingress[app] == proxy
    case Enable(app) => !Half(m, app)
    case _ => true
  }

  function Next(m: Maps, step: Step): Maps {
    match step
    case PutIngress(app, proxy) => m.(ingress := m.ingress[app := proxy])
    case PutEgress(proxy, app) => m.(egress := m.egress[proxy := app])
    case Enable(app) => m.(disabled := m.disabled - {app})
    case Disable(app) => m.(disabled := m.disabled + {app})
    case Register(source) => m.(active := m.active + {source})
    case Remove(source) => m.(active := m.active - {source})
  }

  ghost predicate IsRun(ms: seq<Maps>, steps: seq<Step>, apps: set<Port>) {
    && |ms| == |steps| + 1 && ms[0] == Maps(map[], map[], {}, {})
    && forall i :: 0 <= i < |steps| ==> Enabled(ms[i], steps[i], apps) && ms[i + 1] == Next(ms[i], steps[i])
  }

  predicate Inv(m: Maps, apps: set<Port>) {
    && (forall a :: a in m.ingress ==> a in apps && m.ingress[a] !in apps)
    && (forall a, b :: a in m.ingress && b in m.ingress && m.ingress[a] == m.ingress[b] ==> a == b)
    && (forall q :: q in m.egress ==> q !in apps && m.egress[q] in apps)
    && (forall a :: a in m.ingress && Half(m, a) ==> a in m.disabled)
  }

  lemma InvKept(m: Maps, step: Step, apps: set<Port>)
    requires Inv(m, apps) && Enabled(m, step, apps)
    ensures Inv(Next(m, step), apps)
  {
    if step.PutEgress? {
      forall a | a in m.ingress && Half(Next(m, step), a) ensures a in m.disabled {
        assert a != step.app && m.ingress[a] != step.proxy;
        assert Half(m, a);
      }
    }
  }

  lemma {:induction false} RunsKeepInv(ms: seq<Maps>, steps: seq<Step>, apps: set<Port>, i: nat)
    requires IsRun(ms, steps, apps) && i < |ms|
    ensures Inv(ms[i], apps)
  {
    hide Enabled, Next;
    if i > 0 {
      RunsKeepInv(ms, steps, apps, i - 1);
      InvKept(ms[i - 1], steps[i - 1], apps);
    }
  }

  // ---------------------------------------------------------------- what clients see

  /** Whatever happens to a packet for one of the container's ports on its way in, the answer
      leaves from the port the client wrote to. The one exception is a registered source port
      writing to a port whose two entries are just being written. */
  lemma EgressUndoesIngress(ms: seq<Maps>, steps: seq<Step>, apps: set<Port>, i: nat, p: Packet)
    requires IsRun(ms, steps, apps) && i < |ms| && p.dest in apps
    ensures EgressRedirect(ms[i], Answer(IngressRedirect(ms[i], p))) == Answer(p)
      <==> !(Half(ms[i], p.dest) && p.source in ms[i].active)
  {
    hide IsRun;
    RunsKeepInv(ms, steps, apps, i);
  }

  /** An answer keeps its meaning while the maps change behind it: a proxy that a packet was
      sent to at one moment is still translated back at any later one, unless its number was
      taken for another port in between. */
  lemma {:induction false} AnswersOutliveChanges(
    ms: seq<Maps>, steps: seq<Step>, apps: set<Port>, i: nat, j: nat, p: Packet)
    requires IsRun(ms, steps, apps) && i <= j < |ms| && p.dest in apps
    requires !(Half(ms[i], p.dest) && p.source in ms[i].active)
    requires forall k :: i <= k < j && steps[k].PutEgress? && steps[k].proxy == IngressRedirect(ms[i], p).dest ==>
      steps[k].app == p.dest
    ensures EgressRedirect(ms[j], Answer(IngressRedirect(ms[i], p))) == Answer(p)
    decreases j
  {
    hide Half;
    if i == j {
      EgressUndoesIngress(ms, steps, apps, i, p);
    } else {
      AnswersOutliveChanges(ms, steps, apps, i, j - 1, p);
      RunsKeepInv(ms, steps, apps, j - 1);
      assert Enabled(ms[j - 1], steps[j - 1], apps) && ms[j] == Next(ms[j - 1], steps[j - 1]);
      AnswerStep(ms[j - 1], steps[j - 1], apps, Answer(IngressRedirect(ms[i], p)), p.dest);
    }
  }

  lemma AnswerStep(m: Maps, step: Step, apps: set<Port>, answer: Packet, app: Port)
    requires Inv(m, apps) && Enabled(m, step, apps) && app in apps
    requires EgressRedirect(m, answer).source == app
    requires step.PutEgress? && step.proxy == answer.source ==> step.app == app
    ensures EgressRedirect(Next(m, step), answer) == EgressRedirect(m, answer)
  {}

  /** No packet leaves from the proxy of a redirected port, whoever sent it, once both entries
      of that port are written; what the proxy itself sends leaves from the port it stands for
      exactly then. */
  lemma ClientsNeverSeeProxies(ms: seq<Maps>, steps: seq<Step>, apps: set<Port>, i: nat, a: Port, p: Packet)
    requires IsRun(ms, steps, apps) && i < |ms| && a in ms[i].ingress
    ensures !Half(ms[i], a) ==> EgressRedirect(ms[i], p).source != ms[i].ingress[a]
    ensures p.source == ms[i].ingress[a] ==> (EgressRedirect(ms[i], p).source == a <==> !Half(ms[i], a))
  {
    hide IsRun;
    RunsKeepInv(ms, steps, apps, i);
  }

  /** Between the two entries a registered source port does see the proxy: a run that gets
      there. */
  lemma HalfWrittenPortLeaksProxy(apps: set<Port>, app: Port, proxy: Port, source: Port)
    returns (ms: seq<Maps>, steps: seq<Step>)
    requires app in apps && proxy !in apps
    ensures IsRun(ms, steps, apps) && |ms| == 4
    ensures Half(ms[3], app) && source in ms[3].active
    ensures EgressRedirect(ms[3], Answer(IngressRedirect(ms[3], Packet(source, app)))) == Packet(proxy, source)
  {
    var m0 := Maps(map[], map[], {}, {});
    steps := [Disable(app), PutIngress(app, proxy), Register(source)];
    var m1 := Next(m0, steps[0]);
    var m2 := Next(m1, steps[1]);
    ms := [m0, m1, m2, Next(m2, steps[2])];
  }

  // ---------------------------------------------------------------- who is redirected

  predicate ToProxy(m: Maps, p: Packet) {
    p.dest in m.ingress && IngressRedirect(m, p) == p.(dest := m.ingress[p.dest])
  }

  /** Step `i` is `on`, and no step between it and `j` is `off`. */
  predicate Holds(steps: seq<Step>, i: int, j: int, on: Step, off: Step) {
    0 <= i < j <= |steps| && steps[i] == on && forall k :: i < k < j ==> steps[k] != off
  }

  /** The last `on` has not been followed by an `off`. */
  ghost predicate Open(steps: seq<Step>, j: int, on: Step, off: Step) {
    exists i :: Holds(steps, i, j, on, off)
  }

  lemma OpenStep(steps: seq<Step>, j: int, on: Step, off: Step)
    requires 0 < j <= |steps| && on != off
    ensures Open(steps, j, on, off) <==> steps[j - 1] == on || (steps[j - 1] != off && Open(steps, j - 1, on, off))
  {
    var h := j - 1;
    if steps[h] == on {
      assert Holds(steps, h, j, on, off);
    }
    if steps[h] != off && Open(steps, h, on, off) {
      var i :| Holds(steps, i, h, on, off);
      assert Holds(steps, i, j, on, off);
    }
    if Open(steps, j, on, off) {
      var i :| Holds(steps, i, j, on, off);
      assert i == h || Holds(steps, i, h, on, off);
    }
  }

  lemma NothingOpen(steps: seq<Step>, on: Step, off: Step)
    ensures !Open(steps, 0, on, off)
  {}

  /** A source port is active exactly if its last registration is not followed by a removal. */
  lemma {:induction false} ActiveIffOpen(ms: seq<Maps>, steps: seq<Step>, apps: set<Port>, j: nat, source: Port)
    requires IsRun(ms, steps, apps) && j < |ms|
    ensures source in ms[j].active <==> Open(steps, j, Register(source), Remove(source))
  {
    hide Open, Enabled;
    if j == 0 {
      NothingOpen(steps, Register(source), Remove(source));
    } else {
      ActiveIffOpen(ms, steps, apps, j - 1, source);
      assert ms[j] == Next(ms[j - 1], steps[j - 1]);
      OpenStep(steps, j, Register(source), Remove(source));
    }
  }

  /** A port is disabled exactly if it was last switched off and not on again. */
  lemma {:induction false} DisabledIffSwitchedOff(ms: seq<Maps>, steps: seq<Step>, apps: set<Port>, j: nat, app: Port)
    requires IsRun(ms, steps, apps) && j < |ms|
    ensures app in ms[j].disabled <==> Open(steps, j, Disable(app), Enable(app))
  {
    hide Open, Enabled;
    if j == 0 {
      NothingOpen(steps, Disable(app), Enable(app));
    } else {
      DisabledIffSwitchedOff(ms, steps, apps, j - 1, app);
      assert ms[j] == Next(ms[j - 1], steps[j - 1]);
      OpenStep(steps, j, Disable(app), Enable(app));
    }
  }

  /** A port is redirected to the proxy last put in for it. */
  lemma {:induction false} RedirectedToLastProxy(
    ms: seq<Maps>, steps: seq<Step>, apps: set<Port>, i: nat, j: nat, app: Port, proxy: Port)
    requires IsRun(ms, steps, apps) && i < j < |ms| && steps[i] == PutIngress(app, proxy)
    requires forall k :: i < k < j && steps[k].PutIngress? ==> steps[k].app != app
    ensures app in ms[j].ingress && ms[j].ingress[app] == proxy
    decreases j
  {
    if i + 1 < j { RedirectedToLastProxy(ms, steps, apps, i, j - 1, app, proxy); }
    assert ms[j] == Next(ms[j - 1], steps[j - 1]);
  }

  /** From registration to removal a connection stays with the proxy, whatever is enabled and
      disabled meanwhile, as long as no other connection shares its source port. */
  lemma RegisteredStaysWithProxy(ms: seq<Maps>, steps: seq<Step>, apps: set<Port>, i: nat, j: nat, p: Packet)
    requires IsRun(ms, steps, apps) && i < j < |ms| && steps[i] == Register(p.source) && p.dest in ms[i].ingress
    requires forall k :: i < k < j ==> steps[k] != Remove(p.source)
    ensures ToProxy(ms[j], p)
  {
    ActiveIffOpen(ms, steps, apps, j, p.source);
    assert Holds(steps, i, j, Register(p.source), Remove(p.source));
    IngressStays(ms, steps, apps, i, j, p.dest);
  }

  lemma {:induction false} IngressStays(ms: seq<Maps>, steps: seq<Step>, apps: set<Port>, i: nat, j: nat, app: Port)
    requires IsRun(ms, steps, apps) && i <= j < |ms| && app in ms[i].ingress
    ensures app in ms[j].ingress
    decreases j
  {
    if i < j {
      IngressStays(ms, steps, apps, i, j - 1, app);
      assert ms[j] == Next(ms[j - 1], steps[j - 1]);
    }
  }

  /** Any other packet for a redirected port goes direct exactly if the port was last switched
      off; all remaining packets are left alone. */
  lemma OthersFollowTheSwitch(ms: seq<Maps>, steps: seq<Step>, apps: set<Port>, j: nat, p: Packet)
    requires IsRun(ms, steps, apps) && j < |ms|
    requires !Open(steps, j, Register(p.source), Remove(p.source))
    ensures ToProxy(ms[j], p) <==> p.dest in ms[j].ingress && !Open(steps, j, Disable(p.dest), Enable(p.dest))
    ensures !ToProxy(ms[j], p) ==> IngressRedirect(ms[j], p) == p
  {
    hide Open, IsRun;
    ActiveIffOpen(ms, steps, apps, j, p.source);
    DisabledIffSwitchedOff(ms, steps, apps, j, p.dest);
    RunsKeepInv(ms, steps, apps, j);
  }

  /** Two clients with the same source port: removing one turns the other away from the proxy. */
  lemma SharedSourcePort(app: Port, proxy: Port, source: Port)
    requires app != proxy
    ensures var m0 := Next(Maps(map[], map[], {}, {}), Disable(app));
      var m := Next(Next(m0, PutIngress(app, proxy)), PutEgress(proxy, app));
      var both := Next(Next(m, Register(source)), Register(source));
      ToProxy(both, Packet(source, app)) && !ToProxy(Next(both, Remove(source)), Packet(source, app))
  {}

  // ---------------------------------------------------------------- the activator

  function Elements(ports: seq<Port>): set<Port> {
    set p | p in ports
  }

  /** What goes wrong with a port, if anything. */
  datatype Fault = NoFault | DisableFails | ListenFails | IngressFails | EgressFails | EnableFails

  class Server {
    var maps: Maps
    var ports: seq<Port>
    var started: bool

    /** `Reset`: redirects again, port by port, up to the first error. */
    method Reset(fault: Port -> Fault) returns (ok: bool, ghost n: nat)
      modifies `maps
      ensures ok == (forall k :: 0 <= k < |ports| ==> fault(ports[k]) != EnableFails)
      ensures n <= |ports| && (ok ==> n == |ports|)
      ensures maps == old(maps).(disabled := old(maps).disabled - Elements(ports[..n]))
    {
      var i := 0;
      n := 0;
      while i < |ports|
        invariant n == i <= |ports| && forall k :: 0 <= k < i ==> fault(ports[k]) != EnableFails
        invariant maps == old(maps).(disabled := old(maps).disabled - Elements(ports[..i]))
      {
        assert ports[..i + 1] == ports[..i] + [ports[i]];
        if fault(ports[i]) == EnableFails { return false, n; }
        maps := maps.(disabled := maps.disabled - {ports[i]});
        i, n := i + 1, n + 1;
      }
      assert ports[..i] == ports;
      return true, n;
    }

    method DisableRedirects(fault: Port -> Fault) returns (ok: bool, ghost n: nat)
      modifies `maps
      ensures ok == (forall k :: 0 <= k < |ports| ==> fault(ports[k]) != DisableFails)
      ensures n <= |ports| && (ok ==> n == |ports|)
      ensures maps == old(maps).(disabled := old(maps).disabled + Elements(ports[..n]))
    {
      var i := 0;
      n := 0;
      while i < |ports|
        invariant n == i <= |ports| && forall k :: 0 <= k < i ==> fault(ports[k]) != DisableFails
        invariant maps == old(maps).(disabled := old(maps).disabled + Elements(ports[..i]))
      {
        assert ports[..i + 1] == ports[..i] + [ports[i]];
        if fault(ports[i]) == DisableFails { return false, n; }
        maps := maps.(disabled := maps.disabled + {ports[i]});
        i, n := i + 1, n + 1;
      }
      assert ports[..i] == ports;
      return true, n;
    }

    /** Both entries of one redirection. Whatever fails, the maps stay sound and no other port
        is affected; on success the port is translated both ways. */
    method RedirectPort(from: Port, to: Port, fault: Fault, ghost apps: set<Port>) returns (ok: bool)
      requires Inv(maps, apps) && Free(maps, to, from, apps) && from in apps && from in maps.disabled
      modifies `maps
      ensures ok == (fault != IngressFails && fault != EgressFails)
      ensures Inv(maps, apps) && maps.disabled == old(maps).disabled && maps.active == old(maps).active
      ensures ok ==> from in maps.ingress && maps.ingress[from] == to && !Half(maps, from)
      ensures forall a :: a in old(maps).ingress && !Half(old(maps), a) && a != from ==>
        a in maps.ingress && maps.ingress[a] == old(maps).ingress[a] && !Half(maps, a)
      ensures ok ==> forall a, q :: q != to && Free(old(maps), q, a, apps) ==> Free(maps, q, a, apps)
      ensures maps ==
        if fault == IngressFails then old(maps)
        else if fault == EgressFails then Next(old(maps), PutIngress(from, to))
        else Next(Next(old(maps), PutIngress(from, to)), PutEgress(to, from))
    {
      hide Inv, Half, Free;
      if fault == IngressFails { return false; }
      Redirected(maps, from, to, apps);
      maps := maps.(ingress := maps.ingress[from := to]);
      if fault == EgressFails { return false; }
      maps := maps.(egress := maps.egress[to := from]);
      return true;
    }

    /** The loop of `Start`; `proxies` are the free ports its listeners got. */
    method ListenAll(proxies: seq<Port>, fault: Port -> Fault, ghost apps: set<Port>) returns (ok: bool)
      requires Inv(maps, apps) && |proxies| == |ports| && Elements(ports) <= apps && Elements(ports) <= maps.disabled
      requires forall k :: 0 <= k < |proxies| ==> Free(maps, proxies[k], ports[k], apps)
      requires forall j, k :: 0 <= j < k < |proxies| ==> proxies[j] != proxies[k]
      modifies `maps
      ensures ok == (forall k :: 0 <= k < |ports| ==> fault(ports[k]) !in {ListenFails, IngressFails, EgressFails})
      ensures Inv(maps, apps) && maps.disabled == old(maps).disabled && maps.active == old(maps).active
      ensures ok ==> forall k :: 0 <= k < |ports| ==> ports[k] in maps.ingress && !Half(maps, ports[k])
    {
      hide Inv, Half, Free, Next;
      var i := 0;
      while i < |ports|
        invariant i <= |ports| && Inv(maps, apps)
        invariant maps.disabled == old(maps).disabled && maps.active == old(maps).active
        invariant forall k :: 0 <= k < i ==> fault(ports[k]) !in {ListenFails, IngressFails, EgressFails}
        invariant forall k :: 0 <= k < i ==> ports[k] in maps.ingress && !Half(maps, ports[k])
        invariant forall k :: i <= k < |proxies| ==> Free(maps, proxies[k], ports[k], apps)
      {
        assert ports[i] in Elements(ports);
        if fault(ports[i]) == ListenFails { return false; }
        var redirected := RedirectPort(ports[i], proxies[i], fault(ports[i]), apps);
        if !redirected { return false; }
        i := i + 1;
      }
      return true;
    }

    /** `Start`: redirects start disabled, so nothing is redirected before both its entries
        are written, even if it fails half way; they are enabled at the end only if the
        container itself is not started. */
    method Start(listeners: seq<Port>, proxies: seq<Port>, skipStart: bool, fault: Port -> Fault, ghost apps: set<Port>)
      returns (ok: bool)
      requires Inv(maps, apps) && |proxies| == |listeners| && Elements(listeners) <= apps
      requires forall k :: 0 <= k < |proxies| ==> Free(maps, proxies[k], listeners[k], apps)
      requires forall j, k :: 0 <= j < k < |proxies| ==> proxies[j] != proxies[k]
      modifies this
      ensures ports == listeners && started == (old(started) || ok) && Inv(maps, apps)
      ensures ok <==> forall k :: 0 <= k < |ports| ==>
        fault(ports[k]) == NoFault || (fault(ports[k]) == EnableFails && !skipStart)
      ensures ok ==> forall k :: 0 <= k < |ports| ==> ports[k] in maps.ingress && !Half(maps, ports[k])
      ensures ok ==> forall k :: 0 <= k < |ports| ==> (ports[k] in maps.disabled <==> !skipStart)
    {
      hide Inv, Half, Free;
      ports := listeners;
      ghost var n: nat;
      ghost var m := maps;
      ok, n := DisableRedirects(fault);
      Switched(m, maps.disabled, apps);
      if !ok { return; }
      assert ports[..n] == ports;
      ok := ListenAll(proxies, fault, apps);
      if !ok { return; }
      if skipStart {
        m := maps;
        ok, n := Reset(fault);
        Switched(m, maps.disabled, apps);
        if !ok { return; }
        assert ports[..n] == ports;
      }
      started := true;
    }
  }

  /** Switching ports whose entries are complete. */
  lemma Switched(m: Maps, disabled: set<Port>, apps: set<Port>)
    requires Inv(m, apps) && forall a :: a in m.disabled && a !in disabled ==> !Half(m, a)
    ensures var m1 := m.(disabled := disabled);
      && Inv(m1, apps)
      && (forall a :: Half(m1, a) <==> Half(m, a))
      && (forall a, q :: Free(m1, q, a, apps) <==> Free(m, q, a, apps))
  {}

  /** What the two entries of a new redirection do to the others. */
  lemma Redirected(m: Maps, app: Port, proxy: Port, apps: set<Port>)
    requires Inv(m, apps) && Free(m, proxy, app, apps) && app in apps && app in m.disabled
    ensures var m1 := Next(m, PutIngress(app, proxy));
      var m2 := Next(m1, PutEgress(proxy, app));
      && Inv(m1, apps) && Inv(m2, apps) && !Half(m2, app)
      && (forall a :: a in m.ingress && a != app ==> Half(m1, a) == Half(m, a))
      && (forall a :: a in m.ingress && a != app && !Half(m, a) ==> !Half(m2, a))
      && (forall a, q :: q != proxy && Free(m, q, a, apps) ==> Free(m2, q, a, apps))
  {
    InvKept(m, PutIngress(app, proxy), apps);
    InvKept(Next(m, PutIngress(app, proxy)), PutEgress(proxy, app), apps);
  }
}
