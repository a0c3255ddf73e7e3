/** The cluster controller: from the endpoint configuration to a provisioned cluster. */
module ClusterController {
  import opened Prelude
  import opened Names
  import opened ClusterConfig
  import opened EndpointService

  datatype Endpoint = Endpoint(host: string, port: int)

  datatype Ready = Ready(status: bool, reason: string)

  // The fields the cluster controller writes; users also write the endpoint.
  datatype Owned = Owned(finalizer: bool, endpoint: Option<Endpoint>, provisioned: Option<bool>, ready: Option<Ready>)

  datatype Object = Object(config: Option<EndpointConfig>, deleting: bool, otherFinalizers: bool, owned: Owned)

  const Provisioned := "Provisioned"
  const WaitingForEndpointService := "WaitingForEndpointService"
  const WaitingForControlPlaneEndpoint := "WaitingForControlPlaneEndpoint"

  function ModeOf(ep: Option<EndpointConfig>): string {
    if ep.None? || ep.value.mode == "" then ModeExternal else ep.value.mode
  }

  predicate HasHost(e: Option<Endpoint>) {
    e.Some? && e.value.host != ""
  }

  function MarkedProvisioned(o: Owned): Owned {
    o.(provisioned := Some(true), ready := Some(Ready(true, Provisioned)))
  }

  function MarkedNotProvisioned(o: Owned, reason: string): Owned {
    o.(provisioned := Some(false), ready := Some(Ready(false, reason)))
  }

  // What a normal reconcile makes of the object it read, given the Service that
  // EnsureControlPlaneService returned in Service mode (None: it failed).
  function Settled(m: Object, svc: Option<Service>): Owned {
    var o := m.owned.(finalizer := true);
    if ModeOf(m.config) == ModeService then
      if svc.None? then o
      else if AddressOf(svc.value).None? then MarkedNotProvisioned(o, WaitingForEndpointService)
      else MarkedProvisioned(o.(endpoint := Some(Endpoint(AddressOf(svc.value).value, PortOf(m.config)))))
    else if !HasHost(o.endpoint) then MarkedNotProvisioned(o, WaitingForControlPlaneEndpoint)
    else MarkedProvisioned(o)
  }

  // A reconcile that has read the object, and one that has only its patch left.
  datatype Worker =
    | Looking(before: Object, cluster: string)
    | Leaving(before: Object, mem: Owned)

  // A whole reconcile of the object as read, up to the patch.
  ghost function ComputeOf(services: map<Key, Service>, k: Key, m: Object, cluster: string, o: Outcome)
    : (map<Key, Service>, Worker)
  {
    if m.deleting then
      // Deleting the Service, then dropping the finalizer.
      if o.Refused? then (services, Leaving(m, m.owned))
      else (services - {ServiceKey(k)}, Leaving(m, if o.replied then m.owned.(finalizer := false) else m.owned))
    else if ModeOf(m.config) == ModeService then
      var (services', svc) := Ensured(services, k, m.config, cluster, o);
      (services', Leaving(m, Settled(m, svc)))
    else (services, Leaving(m, Settled(m, None)))
  }

  // ---- The code. ----

  class KubeSwiftCluster {
    const key: Key
    const before: Object
    var finalizer: bool
    var endpoint: Option<Endpoint>
    var provisioned: Option<bool>
    var ready: Option<Ready>

    constructor (key: Key, m: Object)
      ensures this.key == key && before == m && Mem() == m.owned
    {
      this.key := key;
      before := m;
      finalizer := m.owned.finalizer;
      endpoint := m.owned.endpoint;
      provisioned := m.owned.provisioned;
      ready := m.owned.ready;
    }

    function Mem(): Owned
      reads this
    {
      Owned(finalizer, endpoint, provisioned, ready)
    }

    method MarkProvisioned()
      modifies this
      ensures Mem() == MarkedProvisioned(old(Mem()))
    {
      provisioned := Some(true);
      ready := Some(Ready(true, Provisioned));
    }

    method MarkNotProvisioned(reason: string)
      modifies this
      ensures Mem() == MarkedNotProvisioned(old(Mem()), reason)
    {
      provisioned := Some(false);
      ready := Some(Ready(false, reason));
    }

    method ReconcileServiceEndpoint(api: ServiceApi, cluster: string) returns (ok: bool, ghost o: Outcome)
      requires finalizer && Mem() == before.owned.(finalizer := true) && ModeOf(before.config) == ModeService
      modifies this, api
      ensures var (services, svc) := Ensured(old(api.services), key, before.config, cluster, o);
              api.services == services && Mem() == Settled(before, svc) && ok == svc.Some?
    {
      var svc;
      svc, o := EnsureControlPlaneService(api, key, before.config, cluster);
      if svc.None? {
        return false, o;
      }
      var host := ControlPlaneServiceAddress(svc.value);
      if host.None? {
        MarkNotProvisioned(WaitingForEndpointService);
        return true, o;
      }
      endpoint := Some(Endpoint(host.value, PortOf(before.config)));
      MarkProvisioned();
      return true, o;
    }

    method ReconcileNormal(api: ServiceApi, cluster: string) returns (ok: bool, ghost o: Outcome)
      requires Mem() == before.owned && !before.deleting
      modifies this, api
      ensures (api.services, Leaving(before, Mem())) == ComputeOf(old(api.services), key, before, cluster, o)
      ensures !ok ==> ModeOf(before.config) == ModeService && Mem() == before.owned.(finalizer := true)
    {
      finalizer := true;
      if ModeOf(before.config) == ModeService {
        ok, o := ReconcileServiceEndpoint(api, cluster);
        return;
      }
      if endpoint.None? || endpoint.value.host == "" {
        MarkNotProvisioned(WaitingForControlPlaneEndpoint);
        return true, Refused;
      }
      MarkProvisioned();
      return true, Refused;
    }

    method ReconcileDelete(api: ServiceApi) returns (ok: bool, ghost o: Outcome)
      requires Mem() == before.owned && before.deleting
      modifies this, api
      ensures forall cluster ::
                (api.services, Leaving(before, Mem())) == ComputeOf(old(api.services), key, before, cluster, o)
      ensures ok ==> ServiceKey(key) !in api.services && !Mem().finalizer
    {
      ok := DeleteControlPlaneService(api, key);
      o := if !ok && api.services == old(api.services) then Refused else Accepted(Desired(key, before.config, ""), ok);
      if ok {
        finalizer := false;
      }
    }
  }

  // What the reconcile reads besides the object: the owning Cluster and the two opt-outs.
  datatype Surroundings = Surroundings(cluster: Option<string>, externallyManaged: bool, paused: bool)

  // Up to the deferred patch: None when the reconcile leaves the object alone.
  method Reconcile(api: ServiceApi, key: Key, m: Object, around: Surroundings)
    returns (worker: Option<Worker>, ok: bool, ghost o: Outcome)
    modifies api
    ensures worker.None? <==> around.cluster.None? || around.externallyManaged || around.paused
    ensures worker.None? ==> api.services == old(api.services)
    ensures worker.Some? ==>
              (api.services, worker.value) == ComputeOf(old(api.services), key, m, around.cluster.value, o)
  {
    if around.cluster.None? || around.externallyManaged || around.paused {
      return None, true, Refused;
    }
    var ksc := new KubeSwiftCluster(key, m);
    if m.deleting {
      ok, o := ksc.ReconcileDelete(api);
    } else {
      ok, o := ksc.ReconcileNormal(api, around.cluster.value);
    }
    worker := Some(Leaving(m, ksc.Mem()));
  }

  // ---- The system: objects, Services, reconciles in flight. ----

  datatype World = World(objects: map<Key, Object>, services: map<Key, Service>, workers: map<Key, Worker>)

  datatype Event =
    | Look(k: Key, cluster: string)
    | Compute(k: Key, outcome: Outcome)
    | Patch(k: Key, delivered: bool)
    | Crash
    | CreateObject(k: Key, config: Option<EndpointConfig>, endpoint: Option<Endpoint>)
    | EditConfig(k: Key, config: Option<EndpointConfig>)
    | SetEndpoint(k: Key, wanted: Endpoint)
    | DeleteObject(k: Key)
    | SetOtherFinalizers(k: Key, present: bool)
    | ChangeService(k: Key, service: Service)
    | RemoveService(k: Key)

  function PatchedOwned(before: Owned, after: Owned, stored: Owned): Owned {
    Owned(
      if after.finalizer != before.finalizer then after.finalizer else stored.finalizer,
      if after.endpoint != before.endpoint then after.endpoint else stored.endpoint,
      if after.provisioned != before.provisioned then after.provisioned else stored.provisioned,
      if after.ready != before.ready then after.ready else stored.ready)
  }

  function PutObject(os: map<Key, Object>, k: Key, m: Object): map<Key, Object> {
    if m.deleting && !m.owned.finalizer && !m.otherFinalizers then os - {k} else os[k := m]
  }

  ghost function Computed(w: World, k: Key, o: Outcome): World
    requires k in w.workers && w.workers[k].Looking?
  {
    var (services, x) := ComputeOf(w.services, k, w.workers[k].before, w.workers[k].cluster, o);
    w.(services := services, workers := w.workers[k := x])
  }

  ghost function Apply(w: World, e: Event): World {
    match e
    case Look(k, cluster) =>
      if k in w.objects && k !in w.workers then w.(workers := w.workers[k := Looking(w.objects[k], cluster)]) else w
    case Compute(k, o) =>
      if k in w.workers && w.workers[k].Looking? then Computed(w, k, o) else w
    case Patch(k, delivered) =>
      if k !in w.workers || w.workers[k].Looking? then w
      else
        var x, rest := w.workers[k], w.workers - {k};
        if !delivered || k !in w.objects
           || (w.objects[k].deleting && !w.objects[k].owned.finalizer && x.mem.finalizer && !x.before.owned.finalizer)
        then w.(workers := rest)
        else
          var m := w.objects[k];
          w.(objects := PutObject(w.objects, k, m.(owned := PatchedOwned(x.before.owned, x.mem, m.owned))), workers := rest)
    case Crash => w.(workers := map[])
    case CreateObject(k, config, endpoint) =>
      // The name may be free again while a reconcile of the former object is still in flight.
      if k in w.objects then w
      else w.(objects := w.objects[k := Object(config, false, false, Owned(false, endpoint, None, None))])
    case EditConfig(k, config) =>
      if k in w.objects then w.(objects := w.objects[k := w.objects[k].(config := config)]) else w
    case SetEndpoint(k, wanted) =>
      // Users set or replace an endpoint; they do not take one away.
      if k in w.objects && (wanted.host != "" || !HasHost(w.objects[k].owned.endpoint))
      then w.(objects := w.objects[k := w.objects[k].(owned := w.objects[k].owned.(endpoint := Some(wanted)))])
      else w
    case DeleteObject(k) =>
      if k in w.objects then w.(objects := PutObject(w.objects, k, w.objects[k].(deleting := true))) else w
    case SetOtherFinalizers(k, b) =>
      if k !in w.objects || (b && w.objects[k].deleting) then w
      else w.(objects := PutObject(w.objects, k, w.objects[k].(otherFinalizers := b)))
    case ChangeService(k, svc) => if k in w.services then w.(services := w.services[k := svc]) else w
    case RemoveService(k) => w.(services := w.services - {k})
  }

  ghost function Run(w: World, es: seq<Event>): World {
    if es == [] then w else Apply(Run(w, es[..|es| - 1]), es[|es| - 1])
  }

  // Objects as users create them; no reconcile has run yet.
  ghost predicate Initial(w: World) {
    w.workers == map[] && forall k | k in w.objects :: w.objects[k].owned.provisioned.None? && w.objects[k].owned.ready.None?
  }

  // ---- What one reconcile amounts to. ----

  // A reconcile that changes the endpoint adopted it in Service mode, from the Service stored
  // when it looked: its ClusterIP, or its first load-balancer address, at the configured port.
  lemma EndpointComesFromService(w: World, k: Key, o: Outcome)
    requires k in w.workers && w.workers[k].Looking?
    ensures var v := Apply(w, Compute(k, o));
            var x, m, svc := v.workers[k], w.workers[k].before, Lookup(v.services, ServiceKey(k));
            x.mem.endpoint != m.owned.endpoint ==>
              && ServiceMode(m.config) && !m.deleting
              && svc.Some? && InSync(svc.value, Desired(k, m.config, w.workers[k].cluster))
              && AsConfigured(svc.value, m.config, w.workers[k].cluster)
              && x.mem.endpoint.Some? && ReachedAt(svc.value, x.mem.endpoint.value.host)
              && x.mem.endpoint.value.port == svc.value.ports[0].port == PortOf(m.config)
              && x.mem.provisioned == Some(true)
  {
    var m := w.workers[k].before;
    ModeMeans(m.config);
    if !m.deleting && ServiceMode(m.config) {
      EnsuredMeans(w.services, k, m.config, w.workers[k].cluster, o);
    }
    hide InSync, Desired, AddressOf, Ensured, AsConfigured, ReachedAt, ModeOf, PortOf;
  }

  lemma ModeMeans(ep: Option<EndpointConfig>)
    ensures ModeOf(ep) == ModeService <==> ServiceMode(ep)
  {
  }

  // What a reconcile of the Service returns, by the fields.
  lemma EnsuredMeans(services: map<Key, Service>, k: Key, ep: Option<EndpointConfig>, cluster: string, o: Outcome)
    ensures var (services', svc) := Ensured(services, k, ep, cluster, o);
            svc.Some? ==>
              && Lookup(services', ServiceKey(k)) == svc
              && InSync(svc.value, Desired(k, ep, cluster)) && AsConfigured(svc.value, ep, cluster)
              && svc.value.ports[0].port == PortOf(ep)
              && (forall host :: AddressOf(svc.value) == Some(host) <==> ReachedAt(svc.value, host))
  {
    hide InSync, Desired, AddressOf, Ensured, ReachedAt;
    EnsuredInSync(services, k, ep, cluster, o);
    var svc := Ensured(services, k, ep, cluster, o).1;
    if svc.Some? {
      InSyncExactlyWhenAsConfigured(svc.value, k, ep, cluster);
      forall host
        ensures AddressOf(svc.value) == Some(host) <==> ReachedAt(svc.value, host)
      {
        AddressMeans(svc.value, host);
      }
    }
  }

  // With every call succeeding and no Service there, a reconcile of a live object leaves one
  // exactly when the configuration has the mode "Service".
  lemma MakesServiceExactlyWhen(services: map<Key, Service>, k: Key, m: Object, cluster: string, got: Service)
    requires !m.deleting && ServiceKey(k) !in services && Admitted(Desired(k, m.config, cluster), got)
    ensures var made := ComputeOf(services, k, m, cluster, Accepted(got, true)).0;
            && (ServiceKey(k) in made <==> ServiceMode(m.config))
            && made == if ServiceMode(m.config) then services[Key(k.ns, k.name + "-cp") := got] else services
  {
    ModeMeans(m.config);
    hide ModeOf, Desired, Admitted, Settled;
  }

  // What a reconcile of a live object makes of it when its calls succeed, by the fields.
  lemma ProvisionedExactlyWhen(w: World, k: Key, o: Outcome)
    requires k in w.workers && w.workers[k].Looking? && !w.workers[k].before.deleting
    ensures var v := Apply(w, Compute(k, o));
            var x, m, cluster := v.workers[k], w.workers[k].before, w.workers[k].cluster;
            && x.mem.finalizer
            && (!ServiceMode(m.config) ==>
                  && v.services == w.services && x.mem.endpoint == m.owned.endpoint
                  && if HasHost(m.owned.endpoint) then Says(x.mem, true, "Provisioned")
                     else Says(x.mem, false, "WaitingForControlPlaneEndpoint"))
            && (ServiceMode(m.config) && Ensured(w.services, k, m.config, cluster, o).1.Some? ==>
                  && ServiceKey(k) in v.services
                  && var svc := v.services[ServiceKey(k)];
                     && AsConfigured(svc, m.config, cluster)
                     && (if exists host :: ReachedAt(svc, host) then
                           && Says(x.mem, true, "Provisioned")
                           && x.mem.endpoint.Some? && ReachedAt(svc, x.mem.endpoint.value.host)
                           && x.mem.endpoint.value.port == svc.ports[0].port
                         else Says(x.mem, false, "WaitingForEndpointService") && x.mem.endpoint == m.owned.endpoint))
            && (ServiceMode(m.config) && Ensured(w.services, k, m.config, cluster, o).1.None? ==>
                  x.mem == m.owned.(finalizer := true))
  {
    var m := w.workers[k].before;
    ModeMeans(m.config);
    EnsuredMeans(w.services, k, m.config, w.workers[k].cluster, o);
    hide InSync, Desired, AddressOf, Ensured, AsConfigured, ReachedAt, ModeOf, PortOf;
    var svc := Ensured(w.services, k, m.config, w.workers[k].cluster, o).1;
    if svc.Some? && AddressOf(svc.value).Some? {
      assert ReachedAt(svc.value, AddressOf(svc.value).value);
    }
  }

  predicate Says(o: Owned, provisioned: bool, reason: string) {
    o.provisioned == Some(provisioned) && o.ready == Some(Ready(provisioned, reason))
  }

  // After a reconcile that did not fail, with nobody else acting, another one writes neither
  // the Service nor the object, whatever the API server would make of a write.
  lemma ReconcileTwice(services: map<Key, Service>, k: Key, m: Object, cluster: string, o: Outcome, o2: Outcome)
    requires !m.deleting && o2.Accepted?
    requires ServiceMode(m.config) ==> Ensured(services, k, m.config, cluster, o).1.Some?
    ensures var (services1, x1) := ComputeOf(services, k, m, cluster, o);
            var (services2, x2) := ComputeOf(services1, k, m.(owned := x1.mem), cluster, o2);
            services2 == services1 && x2.mem == x1.mem
  {
    hide InSync, Desired, AddressOf, ModeOf;
    ModeMeans(m.config);
    if ServiceMode(m.config) {
      EnsuredInSync(services, k, m.config, cluster, o);
    }
  }

  // Outside Service mode the controller never writes the endpoint, whatever users do meanwhile.
  lemma ExternalModeSparesEndpoint(w: World, k: Key, o: Outcome, es: seq<Event>, delivered: bool)
    requires k in w.workers && w.workers[k].Looking? && !ServiceMode(w.workers[k].before.config)
    requires Unfinished(es, k)
    ensures var v := Run(Apply(w, Compute(k, o)), es);
            var u := Apply(v, Patch(k, delivered));
            k in u.objects ==> k in v.objects && u.objects[k].owned.endpoint == v.objects[k].owned.endpoint
  {
    var w1 := Apply(w, Compute(k, o));
    assert w1.workers[k].mem.endpoint == w1.workers[k].before.owned.endpoint;
    WorkerStays(w1, es, k);
    hide Computed, Run;
  }

  // The reconcile of k neither ends in the run nor is lost in a restart.
  predicate Unfinished(es: seq<Event>, k: Key) {
    forall e | e in es :: e != Crash && (e.Patch? ==> e.k != k)
  }

  lemma {:induction false} WorkerStays(w: World, es: seq<Event>, k: Key)
    requires k in w.workers && w.workers[k].Leaving? && Unfinished(es, k)
    ensures k in Run(w, es).workers && Run(w, es).workers[k] == w.workers[k]
  {
    if es != [] {
      var front, e := es[..|es| - 1], es[|es| - 1];
      assert e in es && forall d | d in front :: d in es;
      WorkerStays(w, front, k);
      hide ComputeOf;
    }
  }
}
