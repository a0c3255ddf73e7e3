/** The control-plane endpoint Service: what the cluster controller wants, what it keeps of
    what it finds, and why reconciling it settles after one write. */
module EndpointService {
  import opened Prelude
  import opened Names
  import opened ClusterConfig
  import GuestSpec

  datatype ServicePort = ServicePort(name: string, port: int, targetPort: int, protocol: string, nodePort: int)

  datatype Ingress = Ingress(ip: string, hostname: string)

  datatype Service = Service(
    typ: string, selector: map<string, string>, ports: seq<ServicePort>, loadBalancerClass: Option<string>,
    annotations: map<string, string>, labels: map<string, string>, owner: Option<string>,
    clusterIP: string, ingress: seq<Ingress>)

  const ClusterIP := "ClusterIP"
  const LoadBalancer := "LoadBalancer"
  const ClusterIPNone := "None"

  // ---- The desired Service. ----

  function ServiceKey(k: Key): Key {
    Key(k.ns, k.name + "-cp")
  }

  function ConfigOf(ep: Option<EndpointConfig>): Option<ServiceConfig> {
    if ep.None? then None else ep.value.service
  }

  function PortOf(ep: Option<EndpointConfig>): int {
    var cfg := ConfigOf(ep);
    if cfg.Some? && cfg.value.port != 0 then cfg.value.port else DefaultAPIServerPort
  }

  function TypeOf(ep: Option<EndpointConfig>): string {
    var cfg := ConfigOf(ep);
    if cfg.Some? && cfg.value.typ != "" then cfg.value.typ else ClusterIP
  }

  function Desired(k: Key, ep: Option<EndpointConfig>, cluster: string): Service {
    var cfg := ConfigOf(ep);
    Service(
      TypeOf(ep),
      map[GuestSpec.PoolLabelKey := PoolLabel(cluster)],
      [ServicePort(GuestSpec.APIServerPortName, PortOf(ep), PortOf(ep), "TCP", 0)],
      if cfg.Some? && TypeOf(ep) == LoadBalancer then cfg.value.loadBalancerClass else None,
      if cfg.Some? then cfg.value.annotations else map[],
      map[GuestSpec.ClusterNameLabel := cluster],
      Some(k.name), "", [])
  }

  method BuildControlPlaneService(k: Key, ep: Option<EndpointConfig>, cluster: string) returns (svc: Service)
    ensures svc == Desired(k, ep, cluster)
  {
    var port := PortOf(ep);
    svc := Service(
      TypeOf(ep),
      map[GuestSpec.PoolLabelKey := PoolLabel(cluster)],
      [ServicePort(GuestSpec.APIServerPortName, port, port, "TCP", 0)],
      None, map[], map[GuestSpec.ClusterNameLabel := cluster], None, "", []);
    var cfg := ConfigOf(ep);
    if cfg.Some? {
      if |cfg.value.annotations| > 0 {
        svc := svc.(annotations := cfg.value.annotations);
      }
      if svc.typ == LoadBalancer && cfg.value.loadBalancerClass.Some? {
        svc := svc.(loadBalancerClass := cfg.value.loadBalancerClass);
      }
    }
    // The controller reference.
    svc := svc.(owner := Some(k.name));
  }

  // ---- Merging ports. ----

  // The last NodePort assigned to a port of that name, or zero.
  function LastNodePort(ports: seq<ServicePort>, name: string): int {
    if ports == [] then 0
    else
      var p := ports[|ports| - 1];
      if p.name == name && p.nodePort != 0 then p.nodePort else LastNodePort(ports[..|ports| - 1], name)
  }

  function MergePort(existing: seq<ServicePort>, p: ServicePort): ServicePort {
    if p.nodePort == 0 then p.(nodePort := LastNodePort(existing, p.name)) else p
  }

  function MergePorts(existing: seq<ServicePort>, desired: seq<ServicePort>): (r: seq<ServicePort>)
    ensures |r| == |desired|
    ensures forall i | 0 <= i < |r| :: r[i] == MergePort(existing, desired[i])
  {
    seq(|desired|, i requires 0 <= i < |desired| => MergePort(existing, desired[i]))
  }

  method MergeServicePorts(existing: seq<ServicePort>, desired: seq<ServicePort>) returns (out: array<ServicePort>)
    ensures fresh(out) && out[..] == MergePorts(existing, desired)
  {
    var byName: map<string, int> := map[];
    for i := 0 to |existing|
      invariant forall name :: (name in byName <==> LastNodePort(existing[..i], name) != 0)
      invariant forall name :: name in byName ==> byName[name] == LastNodePort(existing[..i], name)
    {
      var p := existing[i];
      assert existing[..i + 1][..i] == existing[..i];
      if p.nodePort != 0 {
        byName := byName[p.name := p.nodePort];
      }
    }
    assert existing[..|existing|] == existing;
    out := new ServicePort[|desired|](i requires 0 <= i < |desired| => desired[i]);
    for i := 0 to out.Length
      invariant forall j | 0 <= j < i :: out[j] == MergePort(existing, desired[j])
      invariant forall j | i <= j < out.Length :: out[j] == desired[j]
    {
      if out[i].name in byName && out[i].nodePort == 0 {
        out[i] := out[i].(nodePort := byName[out[i].name]);
      }
    }
  }

  // LastNodePort by its meaning.
  lemma {:induction false} LastNodePortMeans(ports: seq<ServicePort>, name: string)
    ensures var n := LastNodePort(ports, name);
            if n == 0 then forall i | 0 <= i < |ports| && ports[i].name == name :: ports[i].nodePort == 0
            else exists i | 0 <= i < |ports| ::
              && ports[i].name == name && ports[i].nodePort == n
              && forall j | i < j < |ports| && ports[j].name == name :: ports[j].nodePort == 0
  {
    if ports != [] {
      var last, front := |ports| - 1, ports[..|ports| - 1];
      if ports[last].name == name && ports[last].nodePort != 0 {
        assert ports[last].nodePort == LastNodePort(ports, name);
      } else {
        LastNodePortMeans(front, name);
        assert forall j | 0 <= j < last :: front[j] == ports[j];
        if LastNodePort(front, name) != 0 {
          var i :| 0 <= i < |front| && front[i].name == name && front[i].nodePort == LastNodePort(front, name)
            && forall j | i < j < |front| && front[j].name == name :: front[j].nodePort == 0;
          assert ports[i].name == name && ports[i].nodePort == LastNodePort(ports, name);
        }
      }
    }
  }

  // Ports of one name agree on having a NodePort.
  predicate NodePortsUniform(ports: seq<ServicePort>) {
    forall i, j | 0 <= i < |ports| && 0 <= j < |ports| && ports[i].name == ports[j].name ::
      ports[i].nodePort == 0 ==> ports[j].nodePort == 0
  }

  lemma MergeTwiceHolds(existing: seq<ServicePort>, desired: seq<ServicePort>)
    requires NodePortsUniform(desired)
    ensures MergePorts(MergePorts(existing, desired), desired) == MergePorts(existing, desired)
  {
    var once := MergePorts(existing, desired);
    forall i | 0 <= i < |desired|
      ensures MergePort(once, desired[i]) == once[i]
    {
      if desired[i].nodePort == 0 {
        LastNodePortMeans(once, desired[i].name);
        var n := LastNodePort(once, desired[i].name);
        assert forall j | 0 <= j < |once| && once[j].name == desired[i].name :: once[j].nodePort == once[i].nodePort by {
          forall j | 0 <= j < |once| && once[j].name == desired[i].name
            ensures once[j].nodePort == once[i].nodePort
          {
            assert desired[j].name == desired[i].name;
          }
        }
      }
    }
  }

  // Merging twice is merging once, whatever exists, exactly when no name occurs both with and
  // without a NodePort among the desired ports.
  lemma MergeTwiceIsOnce(desired: seq<ServicePort>)
    ensures (forall existing :: MergePorts(MergePorts(existing, desired), desired) == MergePorts(existing, desired))
            <==> NodePortsUniform(desired)
  {
    if NodePortsUniform(desired) {
      forall existing
        ensures MergePorts(MergePorts(existing, desired), desired) == MergePorts(existing, desired)
      {
        MergeTwiceHolds(existing, desired);
      }
    } else {
      var i, j :| 0 <= i < |desired| && 0 <= j < |desired| && desired[i].name == desired[j].name
        && desired[i].nodePort == 0 && desired[j].nodePort != 0;
      var once := MergePorts([], desired);
      assert once[i].nodePort == 0 && once[j].nodePort != 0;
      LastNodePortMeans(once, desired[i].name);
      assert MergePorts(once, desired)[i].nodePort != 0;
    }
  }

  // ---- Reconciling the Service. ----

  function Updated(existing: Service, desired: Service): Service {
    existing.(
      typ := desired.typ,
      selector := desired.selector,
      ports := MergePorts(existing.ports, desired.ports),
      loadBalancerClass := if desired.typ == LoadBalancer then desired.loadBalancerClass else existing.loadBalancerClass,
      annotations := existing.annotations + desired.annotations)
  }

  // The comparison that decides whether to write.
  predicate InSync(existing: Service, desired: Service) {
    var updated := Updated(existing, desired);
    && existing.typ == updated.typ
    && existing.selector == updated.selector
    && existing.ports == updated.ports
    && existing.loadBalancerClass == updated.loadBalancerClass
    && existing.annotations == updated.annotations
  }

  predicate SamePort(a: ServicePort, b: ServicePort) {
    a == b.(nodePort := a.nodePort)
  }

  predicate SamePorts(a: seq<ServicePort>, b: seq<ServicePort>) {
    |a| == |b| && forall i | 0 <= i < |a| :: SamePort(a[i], b[i])
  }

  // Distinct names and no NodePort of their own: the ports the controller asks for.
  predicate Plain(ports: seq<ServicePort>) {
    && (forall i | 0 <= i < |ports| :: ports[i].nodePort == 0)
    && (forall i, j | 0 <= i < j < |ports| :: ports[i].name != ports[j].name)
  }

  // The Service provides what the controller owns, whatever else others put on it.
  predicate Fulfils(svc: Service, desired: Service) {
    && svc.typ == desired.typ
    && svc.selector == desired.selector
    && SamePorts(svc.ports, desired.ports)
    && (desired.typ == LoadBalancer ==> svc.loadBalancerClass == desired.loadBalancerClass)
    && (forall a | a in desired.annotations :: a in svc.annotations && svc.annotations[a] == desired.annotations[a])
  }

  lemma DesiredIsPlain(k: Key, ep: Option<EndpointConfig>, cluster: string)
    ensures Plain(Desired(k, ep, cluster).ports)
  {
  }

  // The Service is what the configuration says, by the configuration's fields alone.
  predicate AsConfigured(svc: Service, ep: Option<EndpointConfig>, cluster: string) {
    var given := ep.Some? && ep.value.service.Some?;
    && svc.selector == map["swift.kubeswift.io/pool" := cluster + "-cp"]
    && |svc.ports| == 1
    && svc.ports[0].name == "apiserver" && svc.ports[0].protocol == "TCP"
    && svc.ports[0].targetPort == svc.ports[0].port
    && (if given && ep.value.service.value.port != 0 then svc.ports[0].port == ep.value.service.value.port
        else svc.ports[0].port == 6443)
    && (if given && ep.value.service.value.typ != "" then svc.typ == ep.value.service.value.typ
        else svc.typ == "ClusterIP")
    && (svc.typ == "LoadBalancer" && given ==> svc.loadBalancerClass == ep.value.service.value.loadBalancerClass)
    && (given ==> forall a | a in ep.value.service.value.annotations ::
          a in svc.annotations && svc.annotations[a] == ep.value.service.value.annotations[a])
  }

  // The controller leaves a Service alone exactly when it is what the configuration says; other
  // annotations, NodePorts, addresses and, but for a load balancer, the class are others' affair.
  lemma InSyncExactlyWhenAsConfigured(svc: Service, k: Key, ep: Option<EndpointConfig>, cluster: string)
    ensures InSync(svc, Desired(k, ep, cluster)) <==> AsConfigured(svc, ep, cluster)
  {
    var desired := Desired(k, ep, cluster);
    DesiredIsPlain(k, ep, cluster);
    WritesOnlyWhenNeeded(svc, desired);
    hide InSync;
    if Fulfils(svc, desired) {
      assert SamePort(svc.ports[0], desired.ports[0]);
    }
    if AsConfigured(svc, ep, cluster) {
      assert SamePort(svc.ports[0], desired.ports[0]);
    }
  }

  // A new Service carries the cluster's label and its owner, and is as configured.
  lemma NewServiceMeans(k: Key, ep: Option<EndpointConfig>, cluster: string)
    ensures AsConfigured(Desired(k, ep, cluster), ep, cluster)
    ensures Desired(k, ep, cluster).labels == map["cluster.x-k8s.io/cluster-name" := cluster]
    ensures Desired(k, ep, cluster).owner == Some(k.name)
    ensures Desired(k, ep, cluster).ports[0].nodePort == 0
  {
  }

  // A write takes nothing away that is not the controller's.
  lemma UpdateKeepsOthers(existing: Service, desired: Service)
    ensures var u := Updated(existing, desired);
            && u.labels == existing.labels && u.owner == existing.owner
            && u.clusterIP == existing.clusterIP && u.ingress == existing.ingress
            && (desired.typ != "LoadBalancer" ==> u.loadBalancerClass == existing.loadBalancerClass)
            && (forall a | a in existing.annotations && a !in desired.annotations ::
                  a in u.annotations && u.annotations[a] == existing.annotations[a])
  {
  }

  // Which NodePort a merged port has, by the ports' fields alone.
  lemma MergedPortMeans(existing: seq<ServicePort>, desired: seq<ServicePort>, i: nat)
    requires i < |desired|
    ensures var d, r := desired[i], MergePorts(existing, desired)[i];
            && r == d.(nodePort := r.nodePort)
            && (d.nodePort != 0 ==> r.nodePort == d.nodePort)
            && (d.nodePort == 0 ==>
                  if exists j :: 0 <= j < |existing| && existing[j].name == d.name && existing[j].nodePort != 0 then
                    exists j | 0 <= j < |existing| ::
                      && existing[j].name == d.name && existing[j].nodePort == r.nodePort && r.nodePort != 0
                      && forall l | j < l < |existing| && existing[l].name == d.name :: existing[l].nodePort == 0
                  else r.nodePort == 0)
  {
    LastNodePortMeans(existing, desired[i].name);
  }

  lemma PortsInSync(ports: seq<ServicePort>, desired: seq<ServicePort>)
    requires Plain(desired)
    ensures ports == MergePorts(ports, desired) <==> SamePorts(ports, desired)
  {
    var merged := MergePorts(ports, desired);
    if SamePorts(ports, desired) {
      forall i | 0 <= i < |ports|
        ensures merged[i] == ports[i]
      {
        LastNodePortMeans(ports, desired[i].name);
        assert forall j | 0 <= j < |ports| && j != i :: ports[j].name != ports[i].name by {
          forall j | 0 <= j < |ports| && j != i
            ensures ports[j].name != ports[i].name
          {
            assert desired[j].name != desired[i].name;
          }
        }
      }
    }
    if ports == merged {
      forall i | 0 <= i < |ports|
        ensures SamePort(ports[i], desired[i])
      {
        assert ports[i] == MergePort(ports, desired[i]);
      }
    }
  }

  // No write happens exactly when the Service already provides everything the controller owns:
  // NodePorts, addresses and annotations of others never cause one.
  lemma WritesOnlyWhenNeeded(svc: Service, desired: Service)
    requires Plain(desired.ports)
    ensures InSync(svc, desired) <==> Fulfils(svc, desired)
  {
    PortsInSync(svc.ports, desired.ports);
    if InSync(svc, desired) {
      forall a | a in desired.annotations
        ensures a in svc.annotations && svc.annotations[a] == desired.annotations[a]
      {
        assert a in svc.annotations + desired.annotations;
      }
    }
    if Fulfils(svc, desired) {
      assert svc.annotations + desired.annotations == svc.annotations;
    }
  }

  // What the API server may make of a Service it is sent: it assigns or drops NodePorts,
  // assigns the ClusterIP, and drops a load balancer class that the type does not take.
  predicate Admitted(sent: Service, got: Service) {
    && got == sent.(ports := got.ports, loadBalancerClass := got.loadBalancerClass,
                    clusterIP := got.clusterIP, ingress := got.ingress)
    && SamePorts(got.ports, sent.ports)
    && (sent.typ == LoadBalancer ==> forall i | 0 <= i < |sent.ports| ::
          sent.ports[i].nodePort != 0 ==> got.ports[i].nodePort == sent.ports[i].nodePort)
    && (got.loadBalancerClass == sent.loadBalancerClass || (sent.typ != LoadBalancer && got.loadBalancerClass.None?))
  }

  // What the controller sends: the desired Service, or the one found with the owned fields set.
  function Sent(found: Option<Service>, desired: Service): Service {
    if found.None? then desired else Updated(found.value, desired)
  }

  // Later changes by others: a load-balancer controller, a user, the API server.
  predicate ChangedByOthers(svc: Service, later: Service, desired: Service) {
    && later.typ == svc.typ && later.selector == svc.selector
    && SamePorts(later.ports, svc.ports)
    && later.loadBalancerClass == svc.loadBalancerClass
    && forall a | a in desired.annotations ::
         (a in later.annotations) == (a in svc.annotations)
         && (a in svc.annotations ==> later.annotations[a] == svc.annotations[a])
  }

  // One accepted write is enough: after it no further call writes, even once NodePorts and
  // addresses are assigned and others have put their own annotations on the Service.
  lemma OneWriteSettles(found: Option<Service>, desired: Service, got: Service, later: Service)
    requires Plain(desired.ports)
    requires Admitted(Sent(found, desired), got)
    requires ChangedByOthers(got, later, desired)
    ensures InSync(got, desired) && InSync(later, desired)
  {
    WritesOnlyWhenNeeded(got, desired);
    WritesOnlyWhenNeeded(later, desired);
    var sent := Sent(found, desired);
    assert SamePorts(sent.ports, desired.ports);
    assert SamePorts(got.ports, desired.ports) by {
      forall i | 0 <= i < |got.ports|
        ensures SamePort(got.ports[i], desired.ports[i])
      {
        assert SamePort(got.ports[i], sent.ports[i]) && SamePort(sent.ports[i], desired.ports[i]);
      }
    }
    assert SamePorts(later.ports, desired.ports) by {
      forall i | 0 <= i < |later.ports|
        ensures SamePort(later.ports[i], desired.ports[i])
      {
        assert SamePort(later.ports[i], got.ports[i]) && SamePort(got.ports[i], desired.ports[i]);
      }
    }
    forall a | a in desired.annotations
      ensures a in got.annotations && got.annotations[a] == desired.annotations[a]
    {
      assert a in sent.annotations && sent.annotations[a] == desired.annotations[a];
    }
  }

  // How the calls of one reconcile of the Service go: one of them fails before it takes effect,
  // or the API server accepts what it is sent, and its reply arrives or is lost.
  datatype Outcome = Refused | Accepted(got: Service, replied: bool)

  // The Services after a reconcile, and the Service it returns (None: an error).
  ghost function Ensured(services: map<Key, Service>, k: Key, ep: Option<EndpointConfig>, cluster: string, o: Outcome)
    : (map<Key, Service>, Option<Service>)
  {
    var sk, desired := ServiceKey(k), Desired(k, ep, cluster);
    var found := Lookup(services, sk);
    if o.Refused? then (services, None)
    else if found.Some? && InSync(found.value, desired) then (services, found)
    else if Admitted(Sent(found, desired), o.got) then (services[sk := o.got], if o.replied then Some(o.got) else None)
    else (services, None)
  }

  // What a reconcile returns is stored and provides everything the controller asked for.
  lemma EnsuredInSync(services: map<Key, Service>, k: Key, ep: Option<EndpointConfig>, cluster: string, o: Outcome)
    ensures var (services', svc) := Ensured(services, k, ep, cluster, o);
            svc.Some? ==> Lookup(services', ServiceKey(k)) == svc && InSync(svc.value, Desired(k, ep, cluster))
  {
    var desired := Desired(k, ep, cluster);
    DesiredIsPlain(k, ep, cluster);
    if o.Accepted? && Admitted(Sent(Lookup(services, ServiceKey(k)), desired), o.got) {
      ChangedByNobody(o.got, desired);
      OneWriteSettles(Lookup(services, ServiceKey(k)), desired, o.got, o.got);
    }
    hide InSync, Admitted, Sent, Desired;
  }

  // ---- Whole runs: the controller and everyone else take turns on the Service. ----

  datatype Turn = Ensure(got: Service) | Others(later: Service)

  datatype Tally = Tally(service: Option<Service>, writes: nat)

  ghost function TakeTurn(t: Tally, e: Turn, desired: Service): Tally {
    match e
    case Ensure(got) =>
      if t.service.Some? && InSync(t.service.value, desired) then t
      else if Admitted(Sent(t.service, desired), got) then Tally(Some(got), t.writes + 1)
      else t
    case Others(later) =>
      if t.service.Some? && ChangedByOthers(t.service.value, later, desired) then t.(service := Some(later)) else t
  }

  ghost function TakeTurns(t: Tally, es: seq<Turn>, desired: Service): Tally {
    if es == [] then t else TakeTurn(TakeTurns(t, es[..|es| - 1], desired), es[|es| - 1], desired)
  }

  lemma OthersKeepFulfilled(svc: Service, later: Service, desired: Service)
    requires Fulfils(svc, desired) && ChangedByOthers(svc, later, desired)
    ensures Fulfils(later, desired)
  {
    forall i | 0 <= i < |later.ports|
      ensures SamePort(later.ports[i], desired.ports[i])
    {
      assert SamePort(later.ports[i], svc.ports[i]) && SamePort(svc.ports[i], desired.ports[i]);
    }
  }

  // There is no endless update loop: from any starting Service, a run of any length has at
  // most one accepted write, and from that write on the Service stays in sync.
  lemma {:induction false} AtMostOneWrite(start: Option<Service>, es: seq<Turn>, desired: Service)
    requires Plain(desired.ports)
    ensures var t := TakeTurns(Tally(start, 0), es, desired);
            && t.writes <= 1
            && (t.writes == 1 ==> t.service.Some? && InSync(t.service.value, desired))
  {
    if es != [] {
      var t, e := TakeTurns(Tally(start, 0), es[..|es| - 1], desired), es[|es| - 1];
      AtMostOneWrite(start, es[..|es| - 1], desired);
      hide InSync, Admitted, ChangedByOthers, Sent;
      if e.Ensure? && Admitted(Sent(t.service, desired), e.got) {
        ChangedByNobody(e.got, desired);
        OneWriteSettles(t.service, desired, e.got, e.got);
      }
      if e.Others? && t.service.Some? && ChangedByOthers(t.service.value, e.later, desired) && t.writes == 1 {
        WritesOnlyWhenNeeded(t.service.value, desired);
        OthersKeepFulfilled(t.service.value, e.later, desired);
        WritesOnlyWhenNeeded(e.later, desired);
      }
    }
  }

  lemma ChangedByNobody(svc: Service, desired: Service)
    ensures ChangedByOthers(svc, svc, desired)
  {
  }

  // ---- The code, against an API server that may refuse or lose any call. ----

  datatype Reply = Found(service: Service) | Absent | Error

  datatype Removal = Removed | Missing | Lost

  class ServiceApi {
    var services: map<Key, Service>
    // Accepted writes, and calls that failed: refused or lost on either way.
    ghost var writes: nat
    ghost var failures: nat

    constructor ()
      ensures services == map[] && writes == 0 && failures == 0
    {
      services := map[];
      writes := 0;
      failures := 0;
    }

    method Get(k: Key) returns (r: Reply)
      modifies this`failures
      ensures r.Found? ==> Lookup(services, k) == Some(r.service)
      ensures r.Absent? ==> k !in services
      ensures failures == old(failures) + if r.Error? then 1 else 0
    {
      var lost: bool := *;
      if lost {
        failures := failures + 1;
        return Error;
      }
      return if k in services then Found(services[k]) else Absent;
    }

    // A write: refused or lost before it takes effect, or accepted; the reply to an accepted write may be lost too.
    method Put(k: Key, sent: Service) returns (r: Reply)
      modifies this
      ensures !r.Absent?
      ensures || (services == old(services) && writes == old(writes))
              || (k in services && Admitted(sent, services[k]) && services == old(services)[k := services[k]]
                  && writes == old(writes) + 1)
      ensures r.Found? ==> k in services && services[k] == r.service && writes == old(writes) + 1
      ensures failures == old(failures) + if r.Error? then 1 else 0
    {
      var got: Service := *;
      var lost: bool := *;
      if !Admitted(sent, got) {
        failures := failures + 1;
        return Error;
      }
      services := services[k := got];
      writes := writes + 1;
      if lost {
        failures := failures + 1;
        return Error;
      }
      return Found(got);
    }

    method Delete(k: Key) returns (r: Removal)
      modifies this
      ensures r.Removed? ==> k in old(services) && services == old(services) - {k}
      ensures r.Missing? ==> k !in old(services) && services == old(services)
      ensures r.Lost? ==> services == old(services) || services == old(services) - {k}
      ensures writes == old(writes) && failures == old(failures) + if r.Lost? then 1 else 0
    {
      var requestLost: bool, replyLost: bool := *, *;
      if requestLost {
        failures := failures + 1;
        return Lost;
      }
      r := if replyLost then Lost else if k in services then Removed else Missing;
      if replyLost {
        failures := failures + 1;
      }
      services := services - {k};
    }
  }

  // An absent Service is as good as a removed one: the only error is a call that failed.
  method DeleteControlPlaneService(api: ServiceApi, k: Key) returns (ok: bool)
    modifies api
    ensures api.failures == old(api.failures) + if ok then 0 else 1
    ensures api.services == old(api.services) || api.services == old(api.services) - {ServiceKey(k)}
    ensures ok ==> api.services == old(api.services) - {ServiceKey(k)}
    ensures api.writes == old(api.writes)
  {
    var r := api.Delete(ServiceKey(k));
    return !r.Lost?;
  }

  ghost function WriteOutcome(before: map<Key, Service>, after: map<Key, Service>, sk: Key, r: Reply): Outcome {
    if after == before && !r.Found? then Refused
    else if sk in after then Accepted(after[sk], r.Found?)
    else Refused
  }

  // At most one write, and none when the Service is in sync.
  method EnsureControlPlaneService(api: ServiceApi, k: Key, ep: Option<EndpointConfig>, cluster: string)
    returns (svc: Option<Service>, ghost o: Outcome)
    modifies api
    ensures (api.services, svc) == Ensured(old(api.services), k, ep, cluster, o)
    ensures api.writes == old(api.writes) || api.writes == old(api.writes) + 1
    ensures api.failures == old(api.failures) + if svc.None? then 1 else 0
    ensures var found, desired := Lookup(old(api.services), ServiceKey(k)), Desired(k, ep, cluster);
            found.Some? && InSync(found.value, desired) ==> api.writes == old(api.writes)
  {
    hide Admitted, MergePorts, Desired, Updated;
    var desired := BuildControlPlaneService(k, ep, cluster);
    var sk := ServiceKey(k);
    var r := api.Get(sk);
    if r.Absent? {
      r := api.Put(sk, desired);
      return if r.Found? then Some(r.service) else None, WriteOutcome(old(api.services), api.services, sk, r);
    }
    if r.Error? {
      return None, Refused;
    }
    var existing := r.service;

    var updated := Overlay(existing, desired);
    if existing.typ == updated.typ && existing.selector == updated.selector && existing.ports == updated.ports
       && existing.loadBalancerClass == updated.loadBalancerClass && existing.annotations == updated.annotations {
      return Some(existing), Accepted(existing, true);
    }
    r := api.Put(sk, updated);
    return if r.Found? then Some(r.service) else None, WriteOutcome(old(api.services), api.services, sk, r);
  }

  // The Service as found, with the fields that the controller owns set.
  method Overlay(existing: Service, desired: Service) returns (updated: Service)
    ensures updated == Updated(existing, desired)
  {
    updated := existing;
    updated := updated.(typ := desired.typ);
    updated := updated.(selector := desired.selector);
    var ports := MergeServicePorts(existing.ports, desired.ports);
    updated := updated.(ports := ports[..]);
    if desired.typ == LoadBalancer {
      updated := updated.(loadBalancerClass := desired.loadBalancerClass);
    }
    var annotations := MergeAnnotations(updated.annotations, desired.annotations);
    updated := updated.(annotations := annotations);
  }

  function Only(m: map<string, string>, keys: set<string>): map<string, string> {
    map a | a in m && a in keys :: m[a]
  }

  lemma OnlyNone(m: map<string, string>, existing: map<string, string>)
    ensures existing + Only(m, {}) == existing
  {
  }

  lemma OnlyMore(m: map<string, string>, existing: map<string, string>, keys: set<string>, a: string)
    requires a in m
    ensures existing + Only(m, keys + {a}) == (existing + Only(m, keys))[a := m[a]]
  {
  }

  lemma OnlyAll(m: map<string, string>)
    ensures Only(m, m.Keys) == m
  {
  }

  // Copies the configured annotations over, one by one.
  method MergeAnnotations(existing: map<string, string>, desired: map<string, string>) returns (r: map<string, string>)
    ensures r == existing + desired
  {
    hide Only;
    r := existing;
    OnlyNone(desired, existing);
    var left: set<string> := desired.Keys;
    ghost var copied: set<string> := {};
    while left != {}
      invariant copied + left == desired.Keys
      invariant r == existing + Only(desired, copied)
      decreases |left|
    {
      var a :| a in left;
      assert a in desired.Keys;
      OnlyMore(desired, existing, copied, a);
      r := r[a := desired[a]];
      copied, left := copied + {a}, left - {a};
    }
    assert copied == desired.Keys;
    OnlyAll(desired);
  }

  // ---- The address. ----

  // The first ingress entry that has an address; an IP goes before a hostname of the same entry.
  function IngressAddress(ingress: seq<Ingress>): Option<string> {
    if ingress == [] then None
    else if ingress[0].ip != "" then Some(ingress[0].ip)
    else if ingress[0].hostname != "" then Some(ingress[0].hostname)
    else IngressAddress(ingress[1..])
  }

  function AddressOf(svc: Service): (r: Option<string>)
  {
    if svc.typ == LoadBalancer then IngressAddress(svc.ingress)
    else if svc.clusterIP != "" && svc.clusterIP != ClusterIPNone then Some(svc.clusterIP)
    else None
  }

  lemma {:induction false} IngressAddressMeans(ingress: seq<Ingress>)
    ensures match IngressAddress(ingress)
            case None => forall i | 0 <= i < |ingress| :: ingress[i] == Ingress("", "")
            case Some(a) => exists i | 0 <= i < |ingress| ::
              && (forall j | 0 <= j < i :: ingress[j] == Ingress("", ""))
              && a != ""
              && (a == ingress[i].ip || (ingress[i].ip == "" && a == ingress[i].hostname))
  {
    if ingress != [] && ingress[0] == Ingress("", "") {
      var rest := ingress[1..];
      IngressAddressMeans(rest);
      assert forall j | 0 <= j < |rest| :: rest[j] == ingress[j + 1];
      if IngressAddress(rest).Some? {
        var a := IngressAddress(rest).value;
        var i :| 0 <= i < |rest| && (forall j | 0 <= j < i :: rest[j] == Ingress("", "")) && a != ""
          && (a == rest[i].ip || (rest[i].ip == "" && a == rest[i].hostname));
        assert a == ingress[i + 1].ip || (ingress[i + 1].ip == "" && a == ingress[i + 1].hostname);
        assert forall j | 0 <= j < i + 1 :: ingress[j] == Ingress("", "") by {
          forall j | 0 <= j < i + 1
            ensures ingress[j] == Ingress("", "")
          {
            if j > 0 {
              assert rest[j - 1] == ingress[j];
            }
          }
        }
      }
    } else if ingress != [] {
      assert ingress[0].ip != "" || ingress[0].hostname != "";
    }
  }

  lemma AddressNotEmpty(svc: Service)
    ensures AddressOf(svc).Some? ==> AddressOf(svc).value != ""
  {
    IngressAddressMeans(svc.ingress);
  }

  // The first ingress entry with an address has this one, as its IP or, without one, its hostname.
  predicate FirstIngress(ingress: seq<Ingress>, host: string) {
    exists i | 0 <= i < |ingress| ::
      && (forall j | 0 <= j < i :: ingress[j].ip == "" && ingress[j].hostname == "")
      && host != ""
      && (ingress[i].ip != "" ==> host == ingress[i].ip)
      && (ingress[i].ip == "" ==> host == ingress[i].hostname)
  }

  // Where clients reach the Service, by its fields alone: from outside for a load balancer, and
  // only from there; in the cluster for any other type that has a ClusterIP.
  predicate ReachedAt(svc: Service, host: string) {
    && (svc.typ == "LoadBalancer" ==> FirstIngress(svc.ingress, host))
    && (svc.typ != "LoadBalancer" ==> host == svc.clusterIP && host != "" && host != "None")
  }

  lemma FirstIngressIsOne(ingress: seq<Ingress>, host: string, host': string)
    requires FirstIngress(ingress, host) && FirstIngress(ingress, host')
    ensures host == host'
  {
  }

  lemma AddressMeans(svc: Service, host: string)
    ensures AddressOf(svc) == Some(host) <==> ReachedAt(svc, host)
  {
    if svc.typ == "LoadBalancer" {
      var address := IngressAddress(svc.ingress);
      IngressAddressMeans(svc.ingress);
      if address.Some? {
        var i :| 0 <= i < |svc.ingress| && (forall j | 0 <= j < i :: svc.ingress[j] == Ingress("", ""))
          && (address.value == svc.ingress[i].ip || (svc.ingress[i].ip == "" && address.value == svc.ingress[i].hostname));
        assert svc.ingress[i].ip != "" ==> address.value == svc.ingress[i].ip;
        assert FirstIngress(svc.ingress, address.value);
        if FirstIngress(svc.ingress, host) {
          FirstIngressIsOne(svc.ingress, host, address.value);
        }
      }
    }
  }

  // A load balancer's ClusterIP does not matter, and neither does another Service's ingress.
  lemma OtherAddressDoesNotMatter(svc: Service, ip: string, ingress: seq<Ingress>)
    ensures svc.typ == "LoadBalancer" ==> AddressOf(svc.(clusterIP := ip)) == AddressOf(svc)
    ensures svc.typ != "LoadBalancer" ==> AddressOf(svc.(ingress := ingress)) == AddressOf(svc)
  {
    var t := if svc.typ == "LoadBalancer" then svc.(clusterIP := ip) else svc.(ingress := ingress);
    forall host
      ensures AddressOf(t) == Some(host) <==> AddressOf(svc) == Some(host)
    {
      AddressMeans(t, host);
      AddressMeans(svc, host);
    }
  }

  method ControlPlaneServiceAddress(svc: Service) returns (r: Option<string>)
    ensures r == AddressOf(svc)
  {
    if svc.typ == LoadBalancer {
      for i := 0 to |svc.ingress|
        invariant IngressAddress(svc.ingress) == IngressAddress(svc.ingress[i..])
      {
        assert svc.ingress[i..][1..] == svc.ingress[i + 1..];
        if svc.ingress[i].ip != "" {
          return Some(svc.ingress[i].ip);
        }
        if svc.ingress[i].hostname != "" {
          return Some(svc.ingress[i].hostname);
        }
      }
      return None;
    }
    if svc.clusterIP != "" && svc.clusterIP != ClusterIPNone {
      return Some(svc.clusterIP);
    }
    return None;
  }
}
