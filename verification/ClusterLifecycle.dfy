/** Whole runs of the cluster controller: no Service outlives its cluster, and a configured port
    is the port of every endpoint. */
module ClusterLifecycle {
  import opened Prelude
  import opened Names
  import opened ClusterConfig
  import opened EndpointService
  import opened ClusterController
  import opened ClusterSoundness

  ghost predicate Reachable(w: World) {
    exists w0, es :: Initial(w0) && w == Run(w0, es)
  }

  lemma ServiceKeyInjective(j: Key, k: Key)
    ensures ServiceKey(j) == ServiceKey(k) <==> j == k
  {
    if ServiceKey(j) == ServiceKey(k) {
      SuffixCancels(j.name, k.name, "-cp");
    }
  }

  // ---- No Service outlives its cluster once the finalizer was stored. ----

  // What a reconcile in flight knows of the object and of the Service.
  predicate InFlightOK(m: Option<Object>, x: Worker, present: bool) {
    && (m.Some? && m.value.owned.finalizer ==>
          x.before.owned.finalizer && (x.before.deleting ==> m.value.deleting))
    && (x.Leaving? ==>
          if x.before.deleting then
            x.mem.finalizer == x.before.owned.finalizer || (!x.mem.finalizer && !present)
          else x.mem.finalizer)
  }

  ghost predicate CellInv(w: World, k: Key) {
    k in w.workers ==> InFlightOK(Lookup(w.objects, k), w.workers[k], ServiceKey(k) in w.services)
  }

  // The finalizer holds the object, or the Service is gone and nobody can make it again.
  ghost predicate Guarded(w: World, k: Key) {
    || (k in w.objects && w.objects[k].owned.finalizer)
    || (&& (k in w.objects ==> w.objects[k].deleting && !w.objects[k].owned.finalizer)
        && ServiceKey(k) !in w.services
        && (k in w.workers ==> w.workers[k].before.deleting))
  }

  // A reconcile of j creates or removes no Service but its own.
  lemma ComputeFrame(w: World, j: Key, o: Outcome, k: Key)
    requires j in w.workers && w.workers[j].Looking? && j != k
    ensures var v := Computed(w, j, o);
            && v.objects == w.objects && Lookup(v.workers, k) == Lookup(w.workers, k)
            && (ServiceKey(k) in v.services <==> ServiceKey(k) in w.services)
  {
    ServiceKeyInjective(j, k);
    hide Settled, Desired, InSync, Admitted, Sent;
  }

  lemma ComputeOwn(w: World, k: Key, o: Outcome)
    requires k in w.workers && w.workers[k].Looking?
    ensures var v, x := Computed(w, k, o), w.workers[k];
            && v.objects == w.objects && k in v.workers && v.workers[k].Leaving? && v.workers[k].before == x.before
            && var mem := v.workers[k].mem;
               if x.before.deleting then
                 && (ServiceKey(k) in v.services ==> ServiceKey(k) in w.services && mem == x.before.owned)
                 && (mem.finalizer == x.before.owned.finalizer || (!mem.finalizer && ServiceKey(k) !in v.services))
               else mem.finalizer
  {
    hide Desired, InSync, Admitted, Sent, Ensured;
  }

  lemma ComputeStep(w: World, j: Key, o: Outcome, k: Key)
    requires j in w.workers && w.workers[j].Looking? && CellInv(w, k)
    ensures CellInv(Computed(w, j, o), k)
    ensures Guarded(w, k) ==> Guarded(Computed(w, j, o), k)
  {
    hide Computed;
    if j == k {
      ComputeOwn(w, k, o);
    } else {
      ComputeFrame(w, j, o, k);
    }
  }

  lemma PatchStep(w: World, j: Key, delivered: bool, k: Key)
    requires CellInv(w, k)
    ensures CellInv(Apply(w, Patch(j, delivered)), k)
    ensures Guarded(w, k) ==> Guarded(Apply(w, Patch(j, delivered)), k)
  {
  }

  lemma OtherStep(w: World, e: Event, k: Key)
    requires CellInv(w, k) && !e.Compute? && !e.Patch?
    ensures CellInv(Apply(w, e), k)
    ensures Guarded(w, k) && !Creates(e, k) ==> Guarded(Apply(w, e), k)
  {
  }

  lemma StepKeepsGuarded(w: World, e: Event, k: Key)
    requires CellInv(w, k)
    ensures CellInv(Apply(w, e), k)
    ensures Guarded(w, k) && !Creates(e, k) ==> Guarded(Apply(w, e), k)
  {
    if e.Compute? {
      hide Computed, CellInv, Guarded;
      if e.k in w.workers && w.workers[e.k].Looking? {
        ComputeStep(w, e.k, e.outcome, k);
      }
    } else if e.Patch? {
      hide Apply, CellInv, Guarded;
      PatchStep(w, e.k, e.delivered, k);
    } else {
      hide Apply, CellInv, Guarded;
      OtherStep(w, e, k);
    }
  }

  lemma {:induction false} RunKeepsGuarded(w: World, es: seq<Event>, k: Key)
    requires CellInv(w, k)
    ensures CellInv(Run(w, es), k)
    ensures Guarded(w, k) && (forall e | e in es :: !Creates(e, k)) ==> Guarded(Run(w, es), k)
  {
    hide Apply, CellInv, Guarded, Creates;
    if es != [] {
      var front, e := es[..|es| - 1], es[|es| - 1];
      assert e in es && forall d | d in front :: d in es;
      RunKeepsGuarded(w, front, k);
      StepKeepsGuarded(Run(w, front), e, k);
    }
  }

  // Once its finalizer was stored, a cluster that is gone has left no endpoint Service, now and
  // for the rest of the run, however calls fail and reconciles are lost.
  lemma NoServiceLeft(w: World, es: seq<Event>, k: Key)
    requires Reachable(w) && k in w.objects && w.objects[k].owned.finalizer
    requires forall e | e in es :: !Creates(e, k)
    ensures var v := Run(w, es); k !in v.objects ==> ServiceKey(k) !in v.services
  {
    hide Apply;
    var w0, ds :| Initial(w0) && w == Run(w0, ds);
    RunKeepsGuarded(w0, ds, k);
    RunKeepsGuarded(w, es, k);
  }

  // ---- The port. ----

  predicate PortOK(ep: Option<EndpointConfig>, e: Option<Endpoint>) {
    e.Some? ==> e.value.port == PortOf(ep)
  }

  // The configuration stays, and users who set an endpoint use its port.
  predicate KeepsPort(config: Key -> Option<EndpointConfig>, e: Event) {
    match e
    case CreateObject(k, c, endpoint) => c == config(k) && PortOK(c, endpoint)
    case EditConfig(k, c) => c == config(k)
    case SetEndpoint(k, wanted) => wanted.port == PortOf(config(k))
    case _ => true
  }

  predicate ObjectPlanned(config: Key -> Option<EndpointConfig>, k: Key, m: Object) {
    m.config == config(k) && PortOK(m.config, m.owned.endpoint)
  }

  predicate WorkerPlanned(config: Key -> Option<EndpointConfig>, k: Key, x: Worker) {
    ObjectPlanned(config, k, x.before) && (x.Leaving? ==> PortOK(config(k), x.mem.endpoint))
  }

  ghost predicate PortInv(config: Key -> Option<EndpointConfig>, w: World) {
    && (forall k | k in w.objects :: ObjectPlanned(config, k, w.objects[k]))
    && (forall k | k in w.workers :: WorkerPlanned(config, k, w.workers[k]))
  }

  lemma ComputeKeepsPort(w: World, k: Key, o: Outcome, config: Key -> Option<EndpointConfig>)
    requires k in w.workers && w.workers[k].Looking? && WorkerPlanned(config, k, w.workers[k])
    ensures var v := Computed(w, k, o);
            && v.objects == w.objects && v.workers == w.workers[k := v.workers[k]]
            && WorkerPlanned(config, k, v.workers[k])
  {
    hide Ensured, AddressOf, PortOf;
  }

  lemma StepKeepsPort(config: Key -> Option<EndpointConfig>, w: World, e: Event)
    requires PortInv(config, w) && KeepsPort(config, e)
    ensures PortInv(config, Apply(w, e))
  {
    hide Computed, PortOf;
    if e.Compute? && e.k in w.workers && w.workers[e.k].Looking? {
      ComputeKeepsPort(w, e.k, e.outcome, config);
    }
  }

  lemma {:induction false} RunKeepsPort(config: Key -> Option<EndpointConfig>, w: World, es: seq<Event>)
    requires PortInv(config, w) && forall e | e in es :: KeepsPort(config, e)
    ensures PortInv(config, Run(w, es))
  {
    hide Apply, KeepsPort, PortInv;
    if es != [] {
      var front, e := es[..|es| - 1], es[|es| - 1];
      assert e in es && forall d | d in front :: d in es;
      RunKeepsPort(config, w, front);
      StepKeepsPort(config, Run(w, front), e);
    }
  }

  // A run with a fixed configuration.
  ghost predicate RunsWith(config: Key -> Option<EndpointConfig>, w0: World, es: seq<Event>) {
    && Initial(w0) && PortInv(config, w0)
    && forall e | e in es :: KeepsPort(config, e)
  }

  // Every endpoint stored on such a run has the configured port.
  lemma StoredAtConfiguredPort(config: Key -> Option<EndpointConfig>, w0: World, es: seq<Event>, k: Key)
    requires RunsWith(config, w0, es) && k in Run(w0, es).objects
    ensures var m := Run(w0, es).objects[k];
            m.config == config(k) && (m.owned.endpoint.Some? ==> m.owned.endpoint.value.port == PortOf(config(k)))
  {
    hide Apply;
    RunKeepsPort(config, w0, es);
  }

  // And that of a provisioned cluster, a host.
  lemma ProvisionedAtConfiguredPort(config: Key -> Option<EndpointConfig>, w0: World, es: seq<Event>, k: Key)
    requires RunsWith(config, w0, es) && NeverReused(w0, es, k)
    requires k in Run(w0, es).objects && Run(w0, es).objects[k].owned.provisioned == Some(true)
    ensures var m := Run(w0, es).objects[k];
            HasHost(m.owned.endpoint) && m.owned.endpoint.value.port == PortOf(config(k))
  {
    StoredAtConfiguredPort(config, w0, es, k);
    ProvisionedHasEndpoint(w0, es, k);
  }

  // ---- Where an endpoint comes from. ----

  // A user has set it: at the start, at creation, or later.
  predicate SetByUser(w0: World, es: seq<Event>, k: Key, e: Endpoint) {
    || (k in w0.objects && w0.objects[k].owned.endpoint == Some(e))
    || (exists d | d in es :: d.CreateObject? && d.k == k && d.endpoint == Some(e))
    || SetEndpoint(k, e) in es
  }

  // The step is a reconcile in Service mode whose Service, as it then is, is as configured and
  // is reached at e.
  ghost predicate AdoptedBy(w: World, d: Event, k: Key, e: Endpoint) {
    && d.Compute? && d.k == k && k in w.workers && w.workers[k].Looking?
    && var m, svc := w.workers[k].before, Lookup(Apply(w, d).services, ServiceKey(k));
       && ServiceMode(m.config) && !m.deleting
       && svc.Some? && AsConfigured(svc.value, m.config, w.workers[k].cluster)
       && ReachedAt(svc.value, e.host) && e.port == svc.value.ports[0].port
  }

  ghost predicate HasOrigin(w0: World, es: seq<Event>, k: Key, e: Option<Endpoint>) {
    e.Some? ==>
      || SetByUser(w0, es, k, e.value)
      || exists i | 0 <= i < |es| :: AdoptedBy(Run(w0, es[..i]), es[i], k, e.value)
  }

  // Of the stored endpoint, of the one a reconcile has read, and of the one it will store.
  ghost predicate OriginsKnown(w0: World, es: seq<Event>, w: World, k: Key) {
    && (k in w.objects ==> HasOrigin(w0, es, k, w.objects[k].owned.endpoint))
    && (k in w.workers ==>
          && HasOrigin(w0, es, k, w.workers[k].before.owned.endpoint)
          && (w.workers[k].Leaving? ==> HasOrigin(w0, es, k, w.workers[k].mem.endpoint)))
  }

  lemma OriginStays(w0: World, es: seq<Event>, k: Key, e: Option<Endpoint>)
    requires es != [] && HasOrigin(w0, es[..|es| - 1], k, e)
    ensures HasOrigin(w0, es, k, e)
  {
    hide AdoptedBy, Run;
    var front := es[..|es| - 1];
    if e.Some? && !SetByUser(w0, front, k, e.value) {
      var i :| 0 <= i < |front| && AdoptedBy(Run(w0, front[..i]), front[i], k, e.value);
      assert front[..i] == es[..i] && front[i] == es[i];
    }
  }

  // Where an endpoint of k can newly appear in one step.
  lemma NewEndpoint(w: World, d: Event, k: Key)
    ensures var v := Apply(w, d);
            && (k in v.objects && v.objects[k].owned.endpoint.Some? ==>
                  var e := v.objects[k].owned.endpoint;
                  || (k in w.objects && e == w.objects[k].owned.endpoint)
                  || (k in w.workers && w.workers[k].Leaving? && e == w.workers[k].mem.endpoint)
                  || (d.CreateObject? && d.k == k && d.endpoint == e)
                  || d == SetEndpoint(k, e.value))
            && (k in v.workers ==>
                  || (k in w.workers && v.workers[k] == w.workers[k])
                  || (k in w.objects && v.workers[k].Looking? && v.workers[k].before == w.objects[k])
                  || (d.Compute? && d.k == k && k in w.workers && w.workers[k].Looking?
                      && v.workers[k].Leaving? && v.workers[k].before == w.workers[k].before))
  {
    if d.Compute? && d.k in w.workers && w.workers[d.k].Looking? {
      ComputeAdopts(w, d.k, d.outcome);
    }
    hide Computed;
  }

  lemma {:induction false} RunKnowsOrigins(w0: World, es: seq<Event>, k: Key)
    requires Initial(w0)
    ensures OriginsKnown(w0, es, Run(w0, es), k)
  {
    hide Apply, HasOrigin;
    if es == [] {
      StartsKnown(w0, k);
    } else {
      var front, d := es[..|es| - 1], es[|es| - 1];
      assert d in es && es[..|front|] == front;
      RunKnowsOrigins(w0, front, k);
      NewEndpoint(Run(w0, front), d, k);
      OriginStep(w0, es, k);
    }
  }

  lemma StartsKnown(w0: World, k: Key)
    requires Initial(w0)
    ensures OriginsKnown(w0, [], w0, k)
  {
  }

  lemma OriginStep(w0: World, es: seq<Event>, k: Key)
    requires es != [] && OriginsKnown(w0, es[..|es| - 1], Run(w0, es[..|es| - 1]), k)
    ensures OriginsKnown(w0, es, Run(w0, es), k)
  {
    hide Apply, HasOrigin, Run;
    var front, d := es[..|es| - 1], es[|es| - 1];
    var w := Run(w0, front);
    var v := Apply(w, d);
    assert Run(w0, es) == v by { LastStep(w0, es); }
    NewEndpoint(w, d, k);
    if k in w.objects {
      OriginStays(w0, es, k, w.objects[k].owned.endpoint);
    }
    if k in w.workers {
      OriginStays(w0, es, k, w.workers[k].before.owned.endpoint);
      if w.workers[k].Leaving? {
        OriginStays(w0, es, k, w.workers[k].mem.endpoint);
      }
    }
    if k in v.objects {
      UserOrigin(w0, es, k, v.objects[k].owned.endpoint);
    }
    if d.Compute? && d.k == k && k in w.workers && w.workers[k].Looking? {
      AdoptedOrigin(w0, es, k);
    }
  }

  lemma LastStep(w0: World, es: seq<Event>)
    requires es != []
    ensures Run(w0, es) == Apply(Run(w0, es[..|es| - 1]), es[|es| - 1])
  {
    hide Apply;
  }

  lemma UserOrigin(w0: World, es: seq<Event>, k: Key, e: Option<Endpoint>)
    requires es != []
    ensures var d := es[|es| - 1];
            e.Some? && ((d.CreateObject? && d.k == k && d.endpoint == e) || d == SetEndpoint(k, e.value)) ==>
              HasOrigin(w0, es, k, e)
    ensures e.None? ==> HasOrigin(w0, es, k, e)
  {
    assert es[|es| - 1] in es;
  }

  lemma AdoptedOrigin(w0: World, es: seq<Event>, k: Key)
    requires es != [] && es[|es| - 1].Compute? && es[|es| - 1].k == k
    requires var w := Run(w0, es[..|es| - 1]);
             k in w.workers && w.workers[k].Looking? && HasOrigin(w0, es, k, w.workers[k].before.owned.endpoint)
    ensures var v := Apply(Run(w0, es[..|es| - 1]), es[|es| - 1]);
            k in v.workers && v.workers[k].Leaving? ==> HasOrigin(w0, es, k, v.workers[k].mem.endpoint)
  {
    var front, d := es[..|es| - 1], es[|es| - 1];
    var w := Run(w0, front);
    EndpointComesFromService(w, k, d.outcome);
    var v := Apply(w, d);
    ComputeAdopts(w, k, d.outcome);
    hide Apply, InSync, Desired, AsConfigured, ReachedAt, Run, Computed;
    if v.workers[k].mem.endpoint != w.workers[k].before.owned.endpoint {
      assert AdoptedBy(w, d, k, v.workers[k].mem.endpoint.value);
      assert es[..|front|] == front && es[|front|] == d;
    }
  }

  // On every run, whatever became of the object's name: a stored endpoint was set by a user, or
  // its host was the address of an in-sync Service at an earlier step, and its port the one
  // configured then.
  lemma EndpointHasOrigin(w0: World, es: seq<Event>, k: Key)
    requires Initial(w0) && k in Run(w0, es).objects
    ensures HasOrigin(w0, es, k, Run(w0, es).objects[k].owned.endpoint)
  {
    RunKnowsOrigins(w0, es, k);
  }
}
