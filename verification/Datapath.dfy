/** The two controllers never talk to each other, yet what the machine controller renders into
    control-plane guests and what the cluster controller asks of the endpoint Service fit. */
module Datapath {
  import opened Prelude
  import opened Names
  import opened ClusterConfig
  import opened MachineObject
  import opened ApiServer
  import opened Controller
  import opened Protocol
  import opened Safety
  import GuestSpec
  import EndpointService
  import Lifecycle
  import ClusterLifecycle
  import ClusterSoundness
  import ClusterController

  // ---- A fixed plan of clusters: who belongs where, and how each endpoint is configured. ----

  datatype Identity = Identity(owner: string, cluster: string)

  datatype Plan = Plan(
    machine: Key -> Identity, controlPlane: Key -> bool,
    infraRef: Key -> string, endpoint: Key -> Option<EndpointConfig>)

  // References may be missing still, but never point elsewhere.
  predicate Fits(p: Plan, k: Key, m: Machine) {
    m.owner in {None, Some(p.machine(k).owner)} && m.clusterLabel in {"", p.machine(k).cluster}
  }

  // Everything the plan leaves open may change: secrets, readiness, pausing, what exists already.
  ghost predicate Agrees(p: Plan, env: Environment) {
    && (forall k | k in env.owners :: env.owners[k].controlPlane == p.controlPlane(k))
    && (forall k | k in env.clusters :: env.clusters[k].infraRef == p.infraRef(k))
    && (forall k | k in env.infras :: env.infras[k] == p.endpoint(k))
  }

  // The step keeps to the plan.
  ghost predicate Keeps(p: Plan, e: Event) {
    match e
    case CreateMachine(k, m) => Fits(p, k, m)
    case EditMachine(k, m) => Fits(p, k, m)
    case ChangeEnvironment(env) => Agrees(p, env)
    case _ => true
  }

  predicate IsControlPlane(p: Plan, k: Key) {
    p.controlPlane(Key(k.ns, p.machine(k).owner))
  }

  function InfraOf(p: Plan, ns: string, cluster: string): string {
    p.infraRef(Key(ns, cluster))
  }

  // The exposure that the plan gives machine k.
  function Planned(p: Plan, k: Key): Option<GuestSpec.Exposure> {
    var cluster := p.machine(k).cluster;
    var infra := InfraOf(p, k.ns, cluster);
    if IsControlPlane(p, k) && infra != "" then ExposureOf(cluster, p.endpoint(Key(k.ns, infra))) else None
  }

  // ---- Every step of a run that keeps to the plan. ----

  predicate OwnerPlanned(p: Plan, k: Key, m: Machine, o: CapiMachine) {
    Fits(p, k, m) && m.owner.Some? && o.controlPlane == IsControlPlane(p, k)
  }

  predicate ContextPlanned(p: Plan, k: Key, c: Context) {
    && OwnerPlanned(p, k, c.before, c.owner)
    && c.before.clusterLabel == p.machine(k).cluster
    && c.cluster.infraRef == InfraOf(p, k.ns, p.machine(k).cluster)
  }

  // What the worker carries towards the guest it may create.
  predicate WorkerPlanned(p: Plan, k: Key, x: Job) {
    match x
    case ReadOwner(m) => Fits(p, k, m)
    case ReadCluster(m, o) => OwnerPlanned(p, k, m, o) && m.clusterLabel != ""
    case ReadBootstrap(c) => ContextPlanned(p, k, c)
    case ReadInfra(c) => ContextPlanned(p, k, c) && IsControlPlane(p, k) && c.cluster.infraRef != ""
    case ReadSeed(c, x) => ContextPlanned(p, k, c) && x == Planned(p, k)
    case MakeSeed(c, x) => ContextPlanned(p, k, c) && x == Planned(p, k)
    case MoveSeed(c, x, _) => ContextPlanned(p, k, c) && x == Planned(p, k)
    case ReadGuest(c, x) => ContextPlanned(p, k, c) && x == Planned(p, k)
    case MakeGuest(c, x) => ContextPlanned(p, k, c) && x == Planned(p, k)
    case _ => true
  }

  predicate GuestPlanned(p: Plan, k: Key, g: Guest) {
    && g.rendered.labels == GuestSpec.LabelsOf(k.name, p.machine(k).cluster, Planned(p, k))
    && g.rendered.spec.network == GuestSpec.NetworkOf(Planned(p, k))
  }

  predicate CellPlanned(p: Plan, k: Key, c: Cell) {
    && (c.machine.Some? ==> Fits(p, k, c.machine.value))
    && (c.guest.Some? && Labelled(k, c.guest.value) ==> GuestPlanned(p, k, c.guest.value))
    && (c.worker.Some? ==> WorkerPlanned(p, k, c.worker.value))
  }

  ghost predicate PlanInv(p: Plan, w: World) {
    Agrees(p, w.store.env) && forall k :: CellPlanned(p, k, View(w, k))
  }

  // A reply from a store that agrees with the plan.
  predicate ReplyPlanned(p: Plan, k: Key, x: Job, r: Reply) {
    match (x, r)
    case (ReadMachine, MachineIs(m)) => Fits(p, k, m)
    case (ReadOwner(m), OwnerIs(o)) => o.controlPlane == p.controlPlane(Key(k.ns, m.owner.value))
    case (ReadCluster(m, _), ClusterIs(cl)) => cl.infraRef == InfraOf(p, k.ns, m.clusterLabel)
    case (ReadInfra(c), InfraIs(ep)) => ep == p.endpoint(Key(k.ns, c.cluster.infraRef))
    case _ => true
  }

  lemma RepliesPlanned(p: Plan, w: World, k: Key, f: Fault)
    requires k in w.workers && Agrees(p, w.store.env) && CellPlanned(p, k, View(w, k))
    ensures ReplyPlanned(p, k, w.workers[k], ReplyOf(w, k, f))
  {
    hide Planned, GuestPlanned, WorkerPlanned, Fits;
    assert k in w.store.machines ==> View(w, k).machine == Some(w.store.machines[k]);
  }

  lemma ResumePlanned(p: Plan, k: Key, x: Job, r: Reply)
    requires WorkerPlanned(p, k, x) && ReplyPlanned(p, k, x, r)
    ensures var q := Resume(k, x, r); q.Continue? ==> WorkerPlanned(p, k, q.job)
  {
    hide ExposureOf, Mirror, Migrated;
  }

  // The guest a planned worker makes is as planned, and no call rewrites one.
  lemma GuestCallPlanned(p: Plan, w: World, k: Key, f: Fault)
    requires k in w.workers && CellPlanned(p, k, View(w, k))
    ensures var g := At(StoreAfter(w, k, f), k).guest; g.Some? && Labelled(k, g.value) ==> GuestPlanned(p, k, g.value)
  {
    var x := w.workers[k];
    CallWrites(w, k, f);
    if x.MakeGuest? || x.KillGuest? {
      GuestCall(w, k, f);
    }
    hide Advance, StoreAfter, Planned, GuestSpec.LabelsOf, GuestSpec.NetworkOf;
  }

  lemma MachineCallPlanned(p: Plan, w: World, k: Key, f: Fault)
    requires k in w.workers && CellPlanned(p, k, View(w, k))
    ensures var m := At(StoreAfter(w, k, f), k).machine; m.Some? ==> Fits(p, k, m.value)
  {
    CallWrites(w, k, f);
    if w.workers[k].Persist? {
      PersistCall(w, k, f);
    }
    hide Advance, StoreAfter, Planned;
  }

  lemma OwnAdvanceKeepsPlan(p: Plan, w: World, k: Key, f: Fault)
    requires k in w.workers && Agrees(p, w.store.env) && CellPlanned(p, k, View(w, k))
    ensures CellPlanned(p, k, View(Advance(w, k, f), k))
  {
    RepliesPlanned(p, w, k, f);
    ResumePlanned(p, k, w.workers[k], ReplyOf(w, k, f));
    GuestCallPlanned(p, w, k, f);
    MachineCallPlanned(p, w, k, f);
    AdvanceView(w, k, f);
    hide Advance, StoreAfter, ReplyOf, Resume, Fits, GuestPlanned, ReplyPlanned, WorkerPlanned, Labelled;
  }

  lemma OtherAdvanceKeepsPlan(p: Plan, w: World, k: Key, f: Fault, j: Key)
    requires k in w.workers && j != k && CellPlanned(p, j, View(w, j))
    ensures CellPlanned(p, j, View(Advance(w, k, f), j))
  {
    CallFrame(w.store, k, w.workers[k], f, j);
    assert View(Advance(w, k, f), j) == View(w, j).(pending := View(Advance(w, k, f), j).pending);
    hide Advance, GuestPlanned, WorkerPlanned, Fits, Labelled;
  }

  lemma OutsideKeepsPlan(p: Plan, w: World, e: Event, k: Key)
    requires External(e) && Keeps(p, e) && CellPlanned(p, k, View(w, k))
    ensures CellPlanned(p, k, View(Apply(w, e), k))
  {
    OutsideIsStep(w.store, e, k);
    hide WorkerPlanned, Planned, GuestSpec.LabelsOf, GuestSpec.NetworkOf;
  }

  lemma StepKeepsPlan(p: Plan, w: World, e: Event)
    requires PlanInv(p, w) && Keeps(p, e)
    ensures PlanInv(p, Apply(w, e))
  {
    hide CellPlanned, Agrees, Advance;
    forall k
      ensures CellPlanned(p, k, View(Apply(w, e), k))
    {
      assert CellPlanned(p, k, View(w, k));
      if External(e) {
        OutsideKeepsPlan(p, w, e, k);
      } else if e.Work? {
        if e.k == k && k in w.workers {
          OwnAdvanceKeepsPlan(p, w, k, e.fault);
        } else if e.k in w.workers {
          OtherAdvanceKeepsPlan(p, w, e.k, e.fault, k);
        }
      } else {
        RestartKeepsPlan(p, w, e, k);
      }
    }
    if e.Work? && e.k in w.workers {
      CallWrites(w, e.k, e.fault);
    }
  }

  lemma RestartKeepsPlan(p: Plan, w: World, e: Event, k: Key)
    requires (e.Start? || e.Crash? || e.Enqueue?) && CellPlanned(p, k, View(w, k))
    ensures CellPlanned(p, k, View(Apply(w, e), k))
  {
    hide Fits, GuestPlanned;
  }

  lemma {:induction false} RunKeepsPlan(p: Plan, w: World, es: seq<Event>)
    requires PlanInv(p, w) && forall e | e in es :: Keeps(p, e)
    ensures PlanInv(p, Run(w, es))
  {
    if es != [] {
      var front, e := es[..|es| - 1], es[|es| - 1];
      assert e in es;
      RunKeepsPlan(p, w, front);
      StepKeepsPlan(p, Run(w, front), e);
    }
  }

  // ---- The Service and the guests fit. ----

  predicate Selects(selector: map<string, string>, labels: map<string, string>) {
    forall l | l in selector :: l in labels && labels[l] == selector[l]
  }

  // A world that a run along the plan leads to.
  ghost predicate ReachableAlong(p: Plan, w: World) {
    exists w0, es :: StartsAlong(p, w0, es) && w == Run(w0, es)
  }

  ghost predicate StartsAlong(p: Plan, w0: World, es: seq<Event>) {
    && Initial(w0) && Agrees(p, w0.store.env)
    && (forall k | k in w0.store.machines :: Fits(p, k, w0.store.machines[k]))
    && forall e | e in es :: Keeps(p, e)
  }

  lemma AlongPlan(p: Plan, w: World)
    requires ReachableAlong(p, w)
    ensures PlanInv(p, w)
  {
    var w0, es :| StartsAlong(p, w0, es) && w == Run(w0, es);
    assert PlanInv(p, w0);
    RunKeepsPlan(p, w0, es);
  }

  predicate Pooled(labels: map<string, string>, cluster: string) {
    GuestSpec.PoolLabelKey in labels && labels[GuestSpec.PoolLabelKey] == PoolLabel(cluster)
  }

  // The Service sends its traffic to the guest, on a port the guest exposes under that name.
  predicate Reaches(svc: EndpointService.Service, g: GuestSpec.Rendered) {
    && Selects(svc.selector, g.labels)
    && |svc.ports| == 1
    && var p := svc.ports[0];
       g.spec.network == Some(GuestSpec.GuestNetwork(GuestSpec.NatBinding, [GuestSpec.GuestPort(p.name, p.port, p.targetPort)]))
  }

  // A Service in sync, by its parts.
  lemma InSyncParts(ck: Key, ep: Option<EndpointConfig>, cluster: string, svc: EndpointService.Service)
    requires EndpointService.InSync(svc, EndpointService.Desired(ck, ep, cluster))
    ensures |svc.ports| == 1
    ensures svc.ports[0].name == GuestSpec.APIServerPortName
    ensures svc.ports[0].port == svc.ports[0].targetPort == EndpointService.PortOf(ep)
    ensures forall labels :: Selects(svc.selector, labels) <==> Pooled(labels, cluster)
  {
    var desired := EndpointService.Desired(ck, ep, cluster);
    EndpointService.DesiredIsPlain(ck, ep, cluster);
    EndpointService.WritesOnlyWhenNeeded(svc, desired);
    assert EndpointService.SamePort(svc.ports[0], desired.ports[0]);
    hide EndpointService.InSync;
  }

  // Whatever happened along the plan: a Service that is as the cluster controller wants it
  // selects, of all guests in its namespace, exactly those of its own cluster's control-plane
  // machines (no worker's, no other cluster's) and such as another party has put under this
  // cluster's pool label; and it reaches every one of its own.
  lemma ServiceSelectsControlPlane(
    p: Plan, w: World, ns: string, cluster: string, svc: EndpointService.Service, k: Key)
    requires ReachableAlong(p, w)
    requires var infra := InfraOf(p, ns, cluster);
             var ep := p.endpoint(Key(ns, infra));
             infra != "" && ServiceMode(ep) && EndpointService.InSync(svc, EndpointService.Desired(Key(ns, infra), ep, cluster))
    requires k.ns == ns && k in w.store.guests
    ensures var g := w.store.guests[k];
            var own := IsControlPlane(p, k) && p.machine(k).cluster == cluster;
            && (Selects(svc.selector, g.rendered.labels)
                <==> if Labelled(k, g) then own else Pooled(g.rendered.labels, cluster))
            && (Labelled(k, g) && own ==> Reaches(svc, g.rendered))
    ensures |svc.ports| == 1
    ensures svc.ports[0].port == svc.ports[0].targetPort
                              == EndpointService.PortOf(p.endpoint(Key(ns, InfraOf(p, ns, cluster))))
  {
    AlongPlan(p, w);
    assert CellPlanned(p, k, View(w, k));
    var infra := InfraOf(p, ns, cluster);
    InSyncParts(Key(ns, infra), p.endpoint(Key(ns, infra)), cluster, svc);
    GuestSpec.LabelKeysDistinct();
    PoolLabelInjective(cluster, p.machine(k).cluster);
    hide PlanInv, EndpointService.InSync, EndpointService.Desired, Labelled, ReachableAlong, Selects;
  }

  // The stored endpoint of a Service-mode cluster, however the two controllers' runs went: every
  // control-plane guest of the cluster is exposed at the endpoint's port, every Service that is as
  // the cluster controller wants it reaches that guest, at that port, and the host was the
  // address of such a Service unless a user has set it.
  lemma StoredEndpointReachesControlPlane(
    p: Plan, w: World, cw: ClusterController.World, es: seq<ClusterController.Event>, ns: string, cluster: string, k: Key)
    requires ReachableAlong(p, w) && ClusterLifecycle.RunsWith(p.endpoint, cw, es)
    requires var ck, v := Key(ns, InfraOf(p, ns, cluster)), ClusterController.Run(cw, es);
             && ck.name != "" && ck in v.objects && ServiceMode(v.objects[ck].config)
             && (v.objects[ck].owned.endpoint.Some?
                 || (v.objects[ck].owned.provisioned == Some(true) && ClusterSoundness.NeverReused(cw, es, ck)))
    requires k.ns == ns && k in w.store.guests && Labelled(k, w.store.guests[k])
    requires IsControlPlane(p, k) && p.machine(k).cluster == cluster
    ensures var ck, v := Key(ns, InfraOf(p, ns, cluster)), ClusterController.Run(cw, es);
            var endpoint := v.objects[ck].owned.endpoint;
            && endpoint.Some?
            && (v.objects[ck].owned.provisioned == Some(true) && ClusterSoundness.NeverReused(cw, es, ck) ==>
                  endpoint.value.host != "")
            && ClusterLifecycle.HasOrigin(cw, es, ck, endpoint)
            && w.store.guests[k].rendered.spec.network == ExposedAt(endpoint.value.port)
            && forall svc | EndpointService.InSync(svc, EndpointService.Desired(ck, v.objects[ck].config, cluster)) ::
                 && Reaches(svc, w.store.guests[k].rendered)
                 && svc.ports[0].port == svc.ports[0].targetPort == endpoint.value.port
  {
    hide ReachableAlong, EndpointService.InSync, EndpointService.PortOf, Labelled, Selects;
    hide ClusterController.Run, ClusterLifecycle.HasOrigin, ClusterSoundness.NeverReused;
    var ck, v := Key(ns, InfraOf(p, ns, cluster)), ClusterController.Run(cw, es);
    ClusterLifecycle.StoredAtConfiguredPort(p.endpoint, cw, es, ck);
    ClusterLifecycle.EndpointHasOrigin(cw, es, ck);
    if v.objects[ck].owned.provisioned == Some(true) && ClusterSoundness.NeverReused(cw, es, ck) {
      ClusterLifecycle.ProvisionedAtConfiguredPort(p.endpoint, cw, es, ck);
    }
    forall svc | EndpointService.InSync(svc, EndpointService.Desired(ck, p.endpoint(ck), cluster))
      ensures Reaches(svc, w.store.guests[k].rendered)
      ensures svc.ports[0].port == svc.ports[0].targetPort == EndpointService.PortOf(p.endpoint(ck))
      ensures w.store.guests[k].rendered.spec.network == ExposedAt(svc.ports[0].port)
    {
      ServiceSelectsControlPlane(p, w, ns, cluster, svc, k);
      InSyncParts(ck, p.endpoint(ck), cluster, svc);
    }
    DesiredInSync(ck, p.endpoint(ck), cluster);
  }

  function ExposedAt(port: int): Option<GuestSpec.GuestNetwork> {
    Some(GuestSpec.GuestNetwork(GuestSpec.NatBinding, [GuestSpec.GuestPort(GuestSpec.APIServerPortName, port, port)]))
  }

  lemma DesiredInSync(ck: Key, ep: Option<EndpointConfig>, cluster: string)
    ensures EndpointService.InSync(EndpointService.Desired(ck, ep, cluster), EndpointService.Desired(ck, ep, cluster))
  {
    EndpointService.DesiredIsPlain(ck, ep, cluster);
    EndpointService.WritesOnlyWhenNeeded(EndpointService.Desired(ck, ep, cluster), EndpointService.Desired(ck, ep, cluster));
  }

  // At the moment of adoption the endpoint's host, too, is the address of a stored Service that
  // reaches the cluster's control-plane guests.
  lemma AdoptedEndpointReachesControlPlane(
    p: Plan, w: World, cw: ClusterController.World, ns: string, cluster: string,
    o: EndpointService.Outcome, k: Key)
    requires ReachableAlong(p, w)
    requires var ck := Key(ns, InfraOf(p, ns, cluster));
             && ck.name != "" && ck in cw.workers && cw.workers[ck].Looking?
             && cw.workers[ck].cluster == cluster && cw.workers[ck].before.config == p.endpoint(ck)
    requires k.ns == ns && k in w.store.guests && Labelled(k, w.store.guests[k])
    requires IsControlPlane(p, k) && p.machine(k).cluster == cluster
    ensures var ck := Key(ns, InfraOf(p, ns, cluster));
            var v := ClusterController.Apply(cw, ClusterController.Compute(ck, o));
            var adopted, found := v.workers[ck].mem.endpoint, v.workers[ck].before.owned.endpoint;
            adopted != found ==>
              && adopted.Some?
              && EndpointService.ServiceKey(ck) in v.services
              && var svc := v.services[EndpointService.ServiceKey(ck)];
                 && EndpointService.ReachedAt(svc, adopted.value.host)
                 && Reaches(svc, w.store.guests[k].rendered)
                 && svc.ports[0].port == svc.ports[0].targetPort == adopted.value.port
  {
    var ck := Key(ns, InfraOf(p, ns, cluster));
    ClusterController.EndpointComesFromService(cw, ck, o);
    var v := ClusterController.Apply(cw, ClusterController.Compute(ck, o));
    hide ClusterController.Apply, EndpointService.InSync, EndpointService.Desired, EndpointService.ReachedAt, EndpointService.AsConfigured, Selects;
    hide ReachableAlong, Labelled, EndpointService.PortOf;
    if v.workers[ck].mem.endpoint != v.workers[ck].before.owned.endpoint {
      ServiceSelectsControlPlane(p, w, ns, cluster, v.services[EndpointService.ServiceKey(ck)], k);
    }
  }

  // ---- When the plan changes under a living guest. ----

  predicate Exposed(g: GuestSpec.Rendered) {
    GuestSpec.PoolLabelKey in g.labels || g.spec.network.Some?
  }

  // The endpoint configuration has become `ep`, in whatever way, while a guest that was created
  // with the exposure x lives on. Where the new configuration asks for a Service, the Service
  // reaches the guest, and where it does not, the guest is not exposed, exactly when x is the
  // exposure that the new configuration gives this cluster's control-plane machines. This covers
  // changes of the port and of the mode, workers and the guests of other clusters.
  lemma LivingGuestFitsExactlyWhen(
    w: World, es: seq<Event>, k: Key, home: string, x: Option<GuestSpec.Exposure>,
    ck: Key, ep: Option<EndpointConfig>, cluster: string, svc: EndpointService.Service)
    requires k in w.store.guests && GuestGone(k) !in es
    requires w.store.guests[k].rendered.labels == GuestSpec.LabelsOf(k.name, home, x)
    requires w.store.guests[k].rendered.spec.network == GuestSpec.NetworkOf(x)
    requires ServiceMode(ep) ==> EndpointService.InSync(svc, EndpointService.Desired(ck, ep, cluster))
    ensures k in Run(w, es).store.guests
    ensures var g := Run(w, es).store.guests[k].rendered;
            (if ServiceMode(ep) then Reaches(svc, g) else !Exposed(g)) <==> x == ExposureOf(cluster, ep)
  {
    hide Run, EndpointService.InSync, EndpointService.Desired, Selects;
    Lifecycle.GuestNeverRewritten(w, es, k);
    GuestSpec.LabelKeysDistinct();
    if ServiceMode(ep) {
      InSyncParts(ck, ep, cluster, svc);
    }
  }

  // The cluster controller asks for a Service exactly when the machine controller exposes the
  // cluster's control-plane guests, whatever the configuration, and on the same port.
  lemma ModesAgree(
    services: map<Key, EndpointService.Service>, ck: Key, m: ClusterController.Object, cluster: string,
    got: EndpointService.Service)
    requires !m.deleting && EndpointService.ServiceKey(ck) !in services
    requires EndpointService.Admitted(EndpointService.Desired(ck, m.config, cluster), got)
    ensures var made := ClusterController.ComputeOf(services, ck, m, cluster, EndpointService.Accepted(got, true)).0;
            var x := ExposureOf(cluster, m.config);
            && (EndpointService.ServiceKey(ck) in made <==> x.Some?)
            && (x.Some? ==>
                  && made[EndpointService.ServiceKey(ck)] == got && |got.ports| == 1
                  && got.ports[0].port == got.ports[0].targetPort == x.value.port
                  && (forall labels :: Selects(got.selector, labels) <==>
                        GuestSpec.PoolLabelKey in labels && labels[GuestSpec.PoolLabelKey] == x.value.poolLabel))
  {
    ClusterController.MakesServiceExactlyWhen(services, ck, m, cluster, got);
    ClusterController.ModeMeans(m.config);
    EndpointService.EnsuredInSync(services, ck, m.config, cluster, EndpointService.Accepted(got, true));
    if ServiceMode(m.config) {
      MadeIsGot(services, ck, m, cluster, got);
      InSyncParts(ck, m.config, cluster, got);
    }
    hide EndpointService.Desired, EndpointService.Admitted, EndpointService.InSync, ClusterController.ComputeOf;
    hide Selects, ClusterController.ModeOf;
  }

  lemma MadeIsGot(
    services: map<Key, EndpointService.Service>, ck: Key, m: ClusterController.Object, cluster: string,
    got: EndpointService.Service)
    requires !m.deleting && EndpointService.ServiceKey(ck) !in services && ServiceMode(m.config)
    requires EndpointService.Admitted(EndpointService.Desired(ck, m.config, cluster), got)
    ensures var made := ClusterController.ComputeOf(services, ck, m, cluster, EndpointService.Accepted(got, true)).0;
            made == services[EndpointService.ServiceKey(ck) := got]
    ensures EndpointService.InSync(got, EndpointService.Desired(ck, m.config, cluster))
  {
    hide EndpointService.Desired, EndpointService.Admitted, EndpointService.InSync, ClusterController.Settled;
    hide ClusterController.ModeOf;
    ClusterController.ModeMeans(m.config);
    EndpointService.EnsuredInSync(services, ck, m.config, cluster, EndpointService.Accepted(got, true));
  }
}
