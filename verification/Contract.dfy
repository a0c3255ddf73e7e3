/** What one undisturbed reconcile of a machine does, said once more by the fields of the objects
    alone: which gate stops it, and what it makes of seed, guest, status and Node. */
module Contract {
  import opened Prelude
  import opened Names
  import opened GuestConfig
  import opened ClusterConfig
  import opened MachineObject
  import opened ApiServer
  import opened Controller
  import opened Safety
  import opened Sequential
  import GuestSpec
  import GuestStatus
  import Seeds

  // ---- The gates. ----

  predicate HasOwner(s: Store, k: Key) {
    k in s.machines && s.machines[k].owner.Some? && Key(k.ns, s.machines[k].owner.value) in s.env.owners
  }

  function OwnerOf(s: Store, k: Key): CapiMachine
    requires HasOwner(s, k)
  {
    s.env.owners[Key(k.ns, s.machines[k].owner.value)]
  }

  predicate HasCluster(s: Store, k: Key) {
    k in s.machines && s.machines[k].clusterLabel != "" && Key(k.ns, s.machines[k].clusterLabel) in s.env.clusters
  }

  function ClusterOf(s: Store, k: Key): Cluster
    requires HasCluster(s, k)
  {
    s.env.clusters[Key(k.ns, s.machines[k].clusterLabel)]
  }

  predicate Unpaused(s: Store, k: Key) {
    HasOwner(s, k) && HasCluster(s, k) && !ClusterOf(s, k).paused && !s.machines[k].paused
  }

  predicate Taken(s: Store, k: Key) {
    Unpaused(s, k) && s.machines[k].backendType == "SwiftGuest"
  }

  predicate BootstrapThere(s: Store, k: Key)
    requires Taken(s, k)
  {
    && OwnerOf(s, k).dataSecret.Some?
    && var secret := Key(k.ns, OwnerOf(s, k).dataSecret.value);
       secret in s.env.secrets && s.env.secrets[secret].hasValue
  }

  predicate AsksInfra(s: Store, k: Key)
    requires Taken(s, k)
  {
    OwnerOf(s, k).controlPlane && ClusterOf(s, k).infraRef != ""
  }

  predicate InfraThere(s: Store, k: Key)
    requires Taken(s, k)
  {
    AsksInfra(s, k) ==> Key(k.ns, ClusterOf(s, k).infraRef) in s.env.infras
  }

  predicate Exposes(s: Store, k: Key)
    requires Taken(s, k) && InfraThere(s, k)
  {
    AsksInfra(s, k) && ServiceMode(s.env.infras[Key(k.ns, ClusterOf(s, k).infraRef)])
  }

  predicate Passes(s: Store, k: Key) {
    && Taken(s, k) && !s.machines[k].deleting
    && ClusterOf(s, k).infraReady && BootstrapThere(s, k) && InfraThere(s, k)
    && ConfigOK(s.machines[k].config, Exposes(s, k))
  }

  // A machine that is not taken up is left alone; it is tried again if its owner cannot be read
  // or its backend is not known.
  lemma TurnsAway(s: Store, k: Key)
    requires !Taken(s, k)
    ensures Reconciled(s, k).store == s && Reconciled(s, k).last == None
    ensures Reconciled(s, k).verdict
         == if (k in s.machines && s.machines[k].owner.Some? && !HasOwner(s, k)) || Unpaused(s, k) then Retry else Forget
  {
  }

  function With(s: Store, k: Key, o: Owned): Store
    requires k in s.machines
  {
    s.(machines := s.machines[k := s.machines[k].(owned := o)])
  }

  // Which gate stops a live machine, what it says then, and whether it is tried again at once.
  lemma StopsAtGates(s: Store, k: Key)
    requires Taken(s, k) && !s.machines[k].deleting
    ensures var o, cl, e := s.machines[k].owned.(finalizer := true), ClusterOf(s, k), Reconciled(s, k);
            if !cl.infraReady then
              e == Ended(With(s, k, Waits(o, "WaitingForClusterInfrastructure")), Forget, None)
            else if OwnerOf(s, k).dataSecret.None? then
              e == Ended(With(s, k, Waits(o, "WaitingForBootstrapData")), Forget, None)
            else if !BootstrapThere(s, k) || !InfraThere(s, k) then
              e == Ended(With(s, k, o), Retry, None)
            else
              !Passes(s, k) ==> e == Ended(With(s, k, Waits(o, "VMFailed")), Retry, None)
  {
    hide ConfigOK, Judged, EnsureSeed, EnsureGuest, RenderFor;
  }

  function Waits(o: Owned, reason: string): Owned {
    o.(provisioned := Some(false), ready := Some(Ready(false, reason, "")))
  }

  // ---- Past the gates. ----

  lemma PassesGates(s: Store, k: Key) returns (c: Context, x: Option<GuestSpec.Exposure>)
    requires Passes(s, k)
    ensures c.before == s.machines[k] && c.mem == c.before.owned.(finalizer := true)
    ensures c.owner == OwnerOf(s, k) && SecretName(c) == OwnerOf(s, k).dataSecret.value
    ensures x.Some? == Exposes(s, k)
    ensures x.Some? ==> x == ExposureOf(c.before.clusterLabel, s.env.infras[Key(k.ns, ClusterOf(s, k).infraRef)])
    ensures ConfigOK(c.before.config, x.Some?)
    ensures var seeds := EnsureSeed(s.seeds, k, SecretName(c));
            var guests := EnsureGuest(s.guests, k, RenderFor(k, c, x));
            Reconciled(s, k) == Judged(s.(seeds := seeds, guests := guests), k, c, guests[k])
  {
    hide ConfigOK, Judged, EnsureSeed, EnsureGuest, RenderFor;
    var m := s.machines[k];
    c := Context(m, m.owned.(finalizer := true), OwnerOf(s, k), ClusterOf(s, k));
    x := if AsksInfra(s, k) then ExposureOf(m.clusterLabel, s.env.infras[Key(k.ns, ClusterOf(s, k).infraRef)]) else None;
    assert GateOf(s.env, k, c) == Go(x);
    assert Admit(s.env, k, m) == Admitted(c);
    ConfigPresent(m.config, x.Some?);
  }

  lemma ConfigPresent(config: Option<Config>, exposed: bool)
    requires ConfigOK(config, exposed)
    ensures config.Some?
  {
  }

  // A seed that points at the owner's secret, made new if there was none; and a guest, the one
  // that was there or a new one from which the request can be read.
  lemma Builds(s: Store, k: Key)
    requires Passes(s, k) && KubeKey(k)
    ensures var t := Reconciled(s, k).store;
            && t.env == s.env
            && SeedKey(k) in t.seeds && Seeds.PointsTo(t.seeds[SeedKey(k)], OwnerOf(s, k).dataSecret.value)
            && (if SeedKey(k) in s.seeds then t.seeds[SeedKey(k)].other == s.seeds[SeedKey(k)].other
                else Seeds.Introduces(t.seeds[SeedKey(k)], k))
            && (forall j :: j != SeedKey(k) ==> Lookup(t.seeds, j) == Lookup(s.seeds, j))
            && k in t.guests && t.guests == s.guests[k := t.guests[k]]
            && (if k in s.guests then t.guests[k] == s.guests[k]
                else AsRequested(s, k, t.guests[k]) && !t.guests[k].terminating && t.guests[k].status == GuestStatus.Blank)
  {
    hide ConfigOK, EnsureSeed, Seeds.PointsTo, Seeds.Introduces, AsRequested, RenderFor, Reconciled, Passes, BootstrapThere;
    PassesTaken(s, k);
    var c, x := PassesGates(s, k);
    EnsureSeedTwice(s.seeds, k, SecretName(c));
    var seeds := EnsureSeed(s.seeds, k, SecretName(c));
    var guests := EnsureGuest(s.guests, k, RenderFor(k, c, x));
    JudgedSpares(s.(seeds := seeds, guests := guests), k, c, guests[k]);
    hide Judged;
    if k !in s.guests {
      NewGuestAsRequested(s, k, c, x);
    }
  }

  lemma PassesTaken(s: Store, k: Key)
    requires Passes(s, k)
    ensures Taken(s, k) && InfraThere(s, k) && BootstrapThere(s, k) && s.machines[k].config.Some?
  {
  }

  lemma JudgedSpares(s: Store, k: Key, c: Context, g: Guest)
    ensures var t := Judged(s, k, c, g).store;
            t.env == s.env && t.seeds == s.seeds && t.guests == s.guests
  {
    hide Mirror, EnsureNode, PutMachine;
  }

  // The guest says what the machine's configuration asks for, and exposes the API server exactly
  // for a control-plane machine of a cluster in Service mode, on the configured port.
  ghost predicate AsRequested(s: Store, k: Key, g: Guest) {
    && Taken(s, k) && InfraThere(s, k) && s.machines[k].config.Some?
    && var spec, labels := g.rendered.spec, g.rendered.labels;
       && GuestSpec.RecoverConfig(spec) == GuestSpec.Normal(s.machines[k].config.value)
       && GuestSpec.WellFormed(k.name, g.rendered)
       && GuestSpec.ClusterNameLabel in labels && labels[GuestSpec.ClusterNameLabel] == s.machines[k].clusterLabel
       && (GuestSpec.RecoverExposure(g.rendered).Some? <==> Exposes(s, k))
       && (Exposes(s, k) ==>
             var x := GuestSpec.RecoverExposure(g.rendered).value;
             && x.poolLabel == s.machines[k].clusterLabel + "-cp"
             && x.port == PortIn(s.env.infras[Key(k.ns, ClusterOf(s, k).infraRef)].value))
  }

  function PortIn(ep: EndpointConfig): int {
    match ep.service
    case Some(ServiceConfig(_, port, _, _)) => if port == 0 then 6443 else port
    case None => 6443
  }

  lemma NewGuestAsRequested(s: Store, k: Key, c: Context, x: Option<GuestSpec.Exposure>)
    requires Taken(s, k) && InfraThere(s, k)
    requires c.before == s.machines[k] && x.Some? == Exposes(s, k) && ConfigOK(c.before.config, x.Some?)
    requires x.Some? ==> x == ExposureOf(c.before.clusterLabel, s.env.infras[Key(k.ns, ClusterOf(s, k).infraRef)])
    ensures AsRequested(s, k, Guest(RenderFor(k, c, x), false, GuestStatus.Blank))
  {
    ConfigPresent(c.before.config, x.Some?);
    GuestSpec.RenderRoundTrip(k.name, c.before.clusterLabel, c.before.config.value, x);
    GuestSpec.RenderWellFormed(k.name, c.before.clusterLabel, c.before.config.value, x);
    hide ConfigOK, GuestSpec.Render, GuestSpec.WellFormed, GuestSpec.RecoverConfig, GuestSpec.RecoverExposure, GuestSpec.Normal;
  }

  // The status that goes with the guest; provider ID, addresses and failure domain change only
  // for a guest that is up, and then to the machine's own, the guest's and the owner's.
  lemma Shows(s: Store, k: Key)
    requires Passes(s, k) && KubeKey(k)
    ensures var e, was := Reconciled(s, k), s.machines[k].owned;
            && k in e.store.machines && k in e.store.guests
            && var o, g := e.store.machines[k].owned, e.store.guests[k];
               && e.store.machines == s.machines[k := s.machines[k].(owned := o)]
               && e.last == Some(g)
               && o.finalizer && Mirrors(o, g.status)
               && (if GuestStatus.IsUp(g.status) then
                     DecodeProviderID(o.providerID) == Some(k) && o.failureDomain == OwnerOf(s, k).failureDomain
                   else
                     o.providerID == was.providerID && o.addresses == was.addresses && o.failureDomain == was.failureDomain)
  {
    hide ConfigOK, EnsureSeed, RenderFor, Reconciled, Passes, Mirrors, BootstrapThere, ExposureOf;
    PassesTaken(s, k);
    assert !s.machines[k].deleting by { PassesLive(s, k); }
    var c, x := PassesGates(s, k);
    var seeds := EnsureSeed(s.seeds, k, SecretName(c));
    var guests := EnsureGuest(s.guests, k, RenderFor(k, c, x));
    var t := s.(seeds := seeds, guests := guests);
    JudgedShows(t, k, c, guests[k]);
    JudgedSpares(t, k, c, guests[k]);
  }

  lemma PassesLive(s: Store, k: Key)
    requires Passes(s, k)
    ensures !s.machines[k].deleting
  {
  }

  lemma JudgedShows(s: Store, k: Key, c: Context, g: Guest)
    requires k in s.machines && !c.before.deleting && KubeKey(k)
    ensures var e := Judged(s, k, c, g);
            && k in e.store.machines && e.last == Some(g)
            && var o := e.store.machines[k].owned;
               && e.store.machines == s.machines[k := c.before.(owned := o)]
               && o.finalizer == c.mem.finalizer && Mirrors(o, g.status)
               && (if GuestStatus.IsUp(g.status) then
                     DecodeProviderID(o.providerID) == Some(k) && o.failureDomain == c.owner.failureDomain
                   else
                     o.providerID == c.mem.providerID && o.addresses == c.mem.addresses
                     && o.failureDomain == c.mem.failureDomain)
  {
    hide EnsureNode, Mirrors, ProviderID;
    MirrorMirrors(k, c, g);
    GuestStatus.ObserveMeans(g.status, GuestStatus.Observe(g.status));
    ProviderIDRoundTrip(k);
    hide GuestStatus.Observe;
  }

  // The Node gets the machine's ID exactly when the guest is up, the workload cluster can be
  // reached and the Node is there without one; and what is tried again, and when.
  predicate Reaches(s: Store, k: Key)
    requires k in s.machines
  {
    var kubeconfig := Key(k.ns, s.machines[k].clusterLabel + "-kubeconfig");
    kubeconfig in s.env.secrets && s.env.secrets[kubeconfig] == Secret(true, true)
  }

  lemma Registers(s: Store, k: Key)
    requires Passes(s, k) && KubeKey(k)
    ensures var e := Reconciled(s, k);
            && k in e.store.guests
            && var g, n := e.store.guests[k], NodeKey(k.ns, s.machines[k].clusterLabel, k.name);
               var kubeconfig := Key(k.ns, s.machines[k].clusterLabel + "-kubeconfig");
               && (if GuestStatus.IsUp(g.status) && Reaches(s, k) && n in s.nodes && s.nodes[n] == "" then
                     && n in e.store.nodes && DecodeProviderID(e.store.nodes[n]) == Some(k)
                     && e.store.nodes == s.nodes[n := e.store.nodes[n]]
                   else e.store.nodes == s.nodes)
               && e.verdict ==
                  if g.status.phase == "Failed" then Retry
                  else if !GuestStatus.IsUp(g.status) || kubeconfig !in s.env.secrets then Later
                  else if !Reaches(s, k) then Retry
                  else if n !in s.nodes then Later
                  else Forget
  {
    hide ConfigOK, EnsureSeed, RenderFor, Reconciled, Passes, BootstrapThere, ExposureOf;
    PassesTaken(s, k);
    var c, x := PassesGates(s, k);
    var seeds := EnsureSeed(s.seeds, k, SecretName(c));
    var guests := EnsureGuest(s.guests, k, RenderFor(k, c, x));
    var t := s.(seeds := seeds, guests := guests);
    JudgedRegisters(t, k, c, guests[k]);
    JudgedSpares(t, k, c, guests[k]);
    hide Judged;
  }

  lemma JudgedRegisters(s: Store, k: Key, c: Context, g: Guest)
    requires k in s.machines && KubeKey(k) && c.before.clusterLabel == s.machines[k].clusterLabel
    ensures var e, n := Judged(s, k, c, g), NodeKey(k.ns, s.machines[k].clusterLabel, k.name);
            var kubeconfig := Key(k.ns, s.machines[k].clusterLabel + "-kubeconfig");
            && (if GuestStatus.IsUp(g.status) && Reaches(s, k) && n in s.nodes && s.nodes[n] == "" then
                  && n in e.store.nodes && DecodeProviderID(e.store.nodes[n]) == Some(k)
                  && e.store.nodes == s.nodes[n := e.store.nodes[n]]
                else e.store.nodes == s.nodes)
            && e.verdict ==
               if g.status.phase == "Failed" then Retry
               else if !GuestStatus.IsUp(g.status) || kubeconfig !in s.env.secrets then Later
               else if !Reaches(s, k) then Retry
               else if n !in s.nodes then Later
               else Forget
  {
    hide ProviderID, Mirror;
    GuestStatus.ObserveMeans(g.status, GuestStatus.Observe(g.status));
    ProviderIDRoundTrip(k);
    hide GuestStatus.Observe;
  }

  // A machine being deleted: its guest goes first, and the seed and the finalizer once the guest
  // is gone.
  lemma Deletes(s: Store, k: Key)
    requires Taken(s, k) && s.machines[k].deleting
    ensures var e, m := Reconciled(s, k), s.machines[k];
            if k in s.guests then
              && e.store.guests == s.guests[k := s.guests[k].(terminating := true)]
              && e.store.seeds == s.seeds && e.store.nodes == s.nodes && e.verdict == Later
              && (m.owned.finalizer ==> e.store.machines == s.machines)
            else
              && e.store.guests == s.guests && e.store.nodes == s.nodes && e.verdict == Forget
              && e.store.seeds == s.seeds - {SeedKey(k)}
              && Lookup(e.store.machines, k)
                 == if m.otherFinalizers then Some(m.(owned := m.owned.(finalizer := false))) else None
  {
  }
}
