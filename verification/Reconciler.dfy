/** The machine controller's code. Every API call may fail and every other actor may step in
    before it; the contracts place the code at the protocol's worker positions, so that each
    execution is a run of the protocol and has its guarantees. */
module Reconciler {
  import opened Prelude
  import opened Names
  import opened GuestConfig
  import opened ClusterConfig
  import opened MachineObject
  import opened ApiServer
  import opened Controller
  import opened Protocol
  import GuestSpec
  import GuestStatus
  import Safety

  // Steps that are not the reconcile of k: everything but its own calls, its start and a restart.
  predicate ByOthers(e: Event, k: Key) {
    !(e.Crash? || ((e.Start? || e.Work?) && e.k == k))
  }

  // The API server as the controller meets it.
  class Api {
    var w: World
    ghost var trace: seq<Event>
    ghost const origin: World
    // How the protocol ended its last finished reconcile.
    ghost var ended: Verdict

    constructor (w: World)
      ensures Valid() && this.w == w && origin == w && trace == []
    {
      this.w := w;
      trace := [];
      origin := w;
      ended := Forget;
    }

    // The world is the result of a run of the protocol.
    ghost predicate Valid()
      reads this
    {
      w == Run(origin, trace)
    }

    // The reconcile of k is at position x.
    predicate IsAt(k: Key, x: Job)
      reads this
    {
      k in w.workers && w.workers[k] == x
    }

    // The reconcile of k has ended so.
    ghost predicate Gone(k: Key, verdict: Verdict)
      reads this
    {
      k !in w.workers && ended == verdict && (verdict != Forget ==> k in w.queue)
    }

    method Take(e: Event)
      requires Valid()
      modifies this
      ensures Valid() && trace == old(trace) + [e] && w == Apply(old(w), e)
    {
      RunSnoc(origin, trace, e);
      w := Apply(w, e);
      trace := trace + [e];
    }

    // Any number of steps of anyone else.
    method Interfere(k: Key)
      requires Valid()
      modifies this
      ensures Valid() && old(trace) <= trace
      ensures Lookup(w.workers, k) == old(Lookup(w.workers, k))
    {
      var n: nat := *;
      while n > 0
        invariant Valid() && old(trace) <= trace
        invariant Lookup(w.workers, k) == old(Lookup(w.workers, k))
      {
        var e: Event := *;
        if ByOthers(e, k) {
          OthersKeepWorker(w, e, k);
          Take(e);
        }
        n := n - 1;
      }
    }

    // One API call of the reconcile of k: it must be the one the protocol makes next.
    method Call(k: Key, call: Call) returns (reply: Reply)
      requires Valid() && k in w.workers && call == NextCall(k, w.workers[k])
      modifies this
      ensures Valid() && old(trace) <= trace
      ensures match Resume(k, old(w.workers[k]), reply)
              case Continue(x) => IsAt(k, x)
              case Finish(verdict, _) => Gone(k, verdict)
    {
      Interfere(k);
      var f: Fault := *;
      reply := Do(w.store, call, f).1;
      OwnStep(w, k, f);
      var p := Resume(k, w.workers[k], reply);
      Take(Work(k, f));
      if p.Finish? {
        ended := p.verdict;
      }
    }
  }

  lemma OthersKeepWorker(w: World, e: Event, k: Key)
    requires ByOthers(e, k)
    ensures Lookup(Apply(w, e).workers, k) == Lookup(w.workers, k)
  {
    hide NextCall, Resume, Exec;
  }

  lemma OwnStep(w: World, k: Key, f: Fault)
    requires k in w.workers
    ensures var v, reply := Apply(w, Work(k, f)), Do(w.store, NextCall(k, w.workers[k]), f).1;
            match Resume(k, w.workers[k], reply)
            case Continue(x) => k in v.workers && v.workers[k] == x
            case Finish(verdict, _) => k !in v.workers && (verdict != Forget ==> k in v.queue)
  {
    hide NextCall, Resume, Exec;
  }

  // The KubeSwiftMachine in memory: the fields the controller sets between its calls.
  class KubeSwiftMachine {
    const before: Machine
    var finalizer: bool
    var providerID: string
    var provisioned: Option<bool>
    var ready: Option<Ready>
    var addresses: seq<GuestStatus.Address>
    var failureDomain: string

    constructor (m: Machine)
      ensures before == m && Mem() == m.owned
    {
      before := m;
      finalizer := m.owned.finalizer;
      providerID := m.owned.providerID;
      provisioned := m.owned.provisioned;
      ready := m.owned.ready;
      addresses := m.owned.addresses;
      failureDomain := m.owned.failureDomain;
    }

    function Mem(): Owned
      reads this
    {
      Owned(finalizer, providerID, provisioned, ready, addresses, failureDomain)
    }

    method SetNotReady(reason: string, message: string)
      modifies this
      ensures Mem() == NotReady(old(Mem()), reason, message)
    {
      provisioned := Some(false);
      ready := Some(Ready(false, reason, message));
    }
  }

  // ---- The controller. ----

  method Reconcile(api: Api, k: Key) returns (verdict: Verdict)
    requires api.Valid() && api.IsAt(k, ReadMachine)
    modifies api
    ensures api.Valid() && old(api.trace) <= api.trace
    ensures api.Gone(k, verdict)
  {
    hide ConfigOK, Validate, Judge, Run, RenderFor, Fail, Mirror, Migrated, DesiredSeed;
    var found, early := Load(api, k);
    if found.None? {
      return early;
    }
    var c := found.value;
    var ksm := new KubeSwiftMachine(c.before);
    var last: Option<Guest> := None;
    if c.before.deleting {
      verdict := ReconcileDelete(api, k, ksm, c.owner, c.cluster);
    } else {
      verdict, last := ReconcileNormal(api, k, ksm, c.owner, c.cluster);
    }

    // The deferred patch.
    var r := api.Call(k, PatchMachine(k, ksm.before.owned, ksm.Mem()));
    if r != Done {
      verdict := Retry;
    }
  }

  // The object, its owner and its cluster, or the verdict of a reconcile that ends before the patch is set up.
  method Load(api: Api, k: Key) returns (found: Option<Context>, verdict: Verdict)
    requires api.Valid() && api.IsAt(k, ReadMachine)
    modifies api
    ensures api.Valid() && old(api.trace) <= api.trace
    ensures found.None? ==> api.Gone(k, verdict)
    ensures found.Some? ==>
              var c := found.value;
              c.mem == c.before.owned && api.IsAt(k, Begin(c).job)
  {
    hide Begin, ConfigOK, Validate, Judge, Fail, Run, RenderFor;
    var r := api.Call(k, GetMachine(k));
    if r == NotFound {
      return None, Forget;
    }
    if !r.MachineIs? {
      return None, Retry;
    }
    var m := r.machine;
    if m.owner.None? {
      return None, Forget;
    }
    r := api.Call(k, GetOwner(Key(k.ns, m.owner.value)));
    if !r.OwnerIs? {
      return None, Retry;
    }
    var owner := r.owner;
    if m.clusterLabel == "" {
      return None, Forget;
    }
    r := api.Call(k, GetCluster(Key(k.ns, m.clusterLabel)));
    if !r.ClusterIs? {
      return None, Forget;
    }
    var cluster := r.cluster;
    if cluster.paused || m.paused {
      return None, Forget;
    }
    if m.backendType != SwiftGuestBackend {
      return None, Retry;
    }
    return Some(Context(m, m.owned, owner, cluster)), Forget;
  }

  method ReconcileNormal(api: Api, k: Key, ksm: KubeSwiftMachine, owner: CapiMachine, cluster: Cluster)
    returns (verdict: Verdict, last: Option<Guest>)
    requires api.Valid() && !ksm.before.deleting && ksm.Mem() == ksm.before.owned
    requires api.IsAt(k, Begin(Context(ksm.before, ksm.Mem(), owner, cluster)).job)
    modifies api, ksm
    ensures api.Valid() && old(api.trace) <= api.trace
    ensures api.IsAt(k, Persist(Context(ksm.before, ksm.Mem(), owner, cluster), last, verdict))
  {
    hide ConfigOK, Validate, Run, NextCall, Resume;
    ksm.finalizer := true;
    if !cluster.infraReady {
      ksm.SetNotReady(WaitingForClusterInfrastructure, "");
      return Forget, None;
    }
    if owner.dataSecret.None? {
      ksm.SetNotReady(WaitingForBootstrapData, "");
      return Forget, None;
    }
    var c := Context(ksm.before, ksm.Mem(), owner, cluster);
    var ok := CheckBootstrapData(api, k, c);
    if !ok {
      return Retry, None;
    }
    var x;
    ok, x := ControlPlaneExposure(api, k, c);
    if !ok {
      return Retry, None;
    }
    verdict, last := ReconcileGuest(api, k, ksm, owner, cluster, x);
  }

  // The rest of a normal reconcile: the backend, the status and the Node.
  method ReconcileGuest(
    api: Api, k: Key, ksm: KubeSwiftMachine, owner: CapiMachine, cluster: Cluster, x: Option<GuestSpec.Exposure>)
    returns (verdict: Verdict, last: Option<Guest>)
    requires api.Valid() && api.IsAt(k, Validate(Context(ksm.before, ksm.Mem(), owner, cluster), x).job)
    modifies api, ksm
    ensures api.Valid() && old(api.trace) <= api.trace
    ensures api.IsAt(k, Persist(Context(ksm.before, ksm.Mem(), owner, cluster), last, verdict))
  {
    hide Validate, ConfigOK, Begin, Judge, Fail, Run, RenderFor, NextCall, Resume;
    var c := Context(ksm.before, ksm.Mem(), owner, cluster);
    var result := BackendReconcile(api, k, c, x);
    match result {
      case Error(g) =>
        ksm.SetNotReady(VMFailed, "");
        return Retry, g;
      case Pending(g, reason, message) =>
        ksm.SetNotReady(reason, message);
        return Later, Some(g);
      case Provisioned(g, addresses) =>
        ksm.providerID := ProviderID(k);
        ksm.addresses := addresses;
        ksm.failureDomain := owner.failureDomain;
        ksm.provisioned := Some(true);
        ksm.ready := Some(Ready(true, VMProvisioned, ""));
        var err, patched := EnsureNodeProviderID(api, k, c.(mem := ksm.Mem()), g);
        return if err then Retry else if !patched then Later else Forget, Some(g);
    }
  }

  method ReconcileDelete(api: Api, k: Key, ksm: KubeSwiftMachine, owner: CapiMachine, cluster: Cluster)
    returns (verdict: Verdict)
    requires api.Valid() && ksm.before.deleting && ksm.Mem() == ksm.before.owned
    requires api.IsAt(k, ReadDoomed(Context(ksm.before, ksm.Mem(), owner, cluster)))
    modifies api, ksm
    ensures api.Valid() && old(api.trace) <= api.trace
    ensures api.IsAt(k, Persist(Context(ksm.before, ksm.Mem(), owner, cluster), None, verdict))
  {
    var err, done := BackendDelete(api, k, Context(ksm.before, ksm.Mem(), owner, cluster));
    if err {
      return Retry;
    }
    if !done {
      return Later;
    }
    ksm.finalizer := false;
    return Forget;
  }

  // Where the reconcile stands once the bootstrap data is known to be there.
  function AfterBootstrap(c: Context): Job {
    if c.owner.controlPlane && c.cluster.infraRef != "" then ReadInfra(c) else Validate(c, None).job
  }

  method CheckBootstrapData(api: Api, k: Key, c: Context) returns (ok: bool)
    requires api.Valid() && api.IsAt(k, ReadBootstrap(c)) && c.owner.dataSecret.Some?
    modifies api
    ensures api.Valid() && old(api.trace) <= api.trace
    ensures api.IsAt(k, if ok then AfterBootstrap(c) else Persist(c, None, Retry))
  {
    var r := api.Call(k, GetSecret(Key(k.ns, c.owner.dataSecret.value)));
    ok := r.SecretIs? && r.secret.hasValue;
  }

  method ControlPlaneExposure(api: Api, k: Key, c: Context) returns (ok: bool, x: Option<GuestSpec.Exposure>)
    requires api.Valid() && api.IsAt(k, AfterBootstrap(c))
    modifies api
    ensures api.Valid() && old(api.trace) <= api.trace
    ensures api.IsAt(k, if ok then Validate(c, x).job else Persist(c, None, Retry))
  {
    if !c.owner.controlPlane || c.cluster.infraRef == "" {
      return true, None;
    }
    var r := api.Call(k, GetInfra(Key(k.ns, c.cluster.infraRef)));
    if !r.InfraIs? {
      return false, None;
    }
    var ep := r.endpoint;
    if ep.None? || ep.value.mode != ModeService {
      return true, None;
    }
    var port := DefaultAPIServerPort;
    if ep.value.service.Some? && ep.value.service.value.port != 0 {
      port := ep.value.service.value.port;
    }
    return true, Some(GuestSpec.Exposure(PoolLabel(c.before.clusterLabel), port));
  }

  // ---- The SwiftGuest backend. ----

  datatype BackendResult =
    | Error(last: Option<Guest>)
    | Pending(guest: Guest, reason: string, message: string)
    | Provisioned(guest: Guest, addresses: seq<GuestStatus.Address>)

  method BackendReconcile(api: Api, k: Key, c: Context, x: Option<GuestSpec.Exposure>) returns (r: BackendResult)
    requires api.Valid() && api.IsAt(k, Validate(c, x).job)
    modifies api
    ensures api.Valid() && old(api.trace) <= api.trace
    ensures api.IsAt(k,
              match r
              case Error(last) => Persist(c.(mem := Broken(c.mem)), last, Retry)
              case Pending(g, reason, message) => Persist(c.(mem := NotReady(c.mem, reason, message)), Some(g), Later)
              case Provisioned(g, addresses) =>
                ReadKubeconfig(c.(mem := Provision(c.mem, ProviderID(k), addresses, c.owner.failureDomain)), g))
  {
    hide Run, RenderFor, NextCall, Resume, GpuOK, PlacementOK, InterfacesOK, PrimaryOnNAD;
    var valid := Configured(c.before.config, x.Some?);
    if !valid {
      return Error(None);
    }
    var ok := EnsureSeedProfile(api, k, c, x);
    if !ok {
      return Error(None);
    }
    var guest := EnsureSwiftGuest(api, k, c, x);
    if guest.None? {
      return Error(None);
    }
    var g := guest.value;
    if g.status.phase == "Failed" {
      return Error(Some(g));
    }
    var addresses := GuestStatus.Addresses(g.status);
    if g.status.phase != "Running" || |addresses| == 0 {
      var message := GuestStatus.ScanUnresolved(g.status.conditions);
      if message.Some? {
        return Pending(g, GuestStatus.VMWaitingForReferences, message.value);
      }
      return Pending(g, GuestStatus.VMProvisioning, "");
    }
    return Provisioned(g, addresses);
  }

  method Configured(config: Option<Config>, exposed: bool) returns (ok: bool)
    ensures ok == ConfigOK(config, exposed)
  {
    if config.None? || config.value.imageRef == "" || config.value.guestClassRef == "" {
      return false;
    }
    ok := ValidateGPU(config.value.gpu);
    if !ok {
      return;
    }
    if config.value.nodeName != "" && config.value.gpu.Some? {
      return false;
    }
    ok := ValidateInterfaces(config.value);
    if !ok {
      return;
    }
    var onNAD := IsPrimaryOnNAD(config.value);
    return !(exposed && onNAD);
  }

  method EnsureSeedProfile(api: Api, k: Key, c: Context, x: Option<GuestSpec.Exposure>) returns (ok: bool)
    requires ConfigOK(c.before.config, x.Some?)
    requires api.Valid() && api.IsAt(k, ReadSeed(c, x))
    modifies api
    ensures api.Valid() && old(api.trace) <= api.trace
    ensures api.IsAt(k, if ok then ReadGuest(c, x) else Fail(c).job)
  {
    hide Begin, ConfigOK, Validate, Judge, Run, RenderFor;
    var desired := DesiredSeed(k, SecretName(c));
    var r := api.Call(k, GetSeed(SeedKey(k)));
    if r.SeedIs? {
      var existing := r.seed;
      var userData := if existing.userData.Some? then existing.userData.value else "";
      if userData == "" && existing.userDataFrom == desired.userDataFrom {
        return true;
      }
      var updated := existing.(userData := None);
      updated := updated.(userDataFrom := desired.userDataFrom);
      r := api.Call(k, UpdateSeed(SeedKey(k), existing, updated));
      return r == Done;
    }
    if r != NotFound {
      return false;
    }
    r := api.Call(k, CreateSeed(SeedKey(k), desired));
    return r == Done;
  }

  method EnsureSwiftGuest(api: Api, k: Key, c: Context, x: Option<GuestSpec.Exposure>) returns (guest: Option<Guest>)
    requires ConfigOK(c.before.config, x.Some?)
    requires api.Valid() && api.IsAt(k, ReadGuest(c, x))
    modifies api
    ensures api.Valid() && old(api.trace) <= api.trace
    ensures api.IsAt(k, if guest.Some? then Judge(k, c, guest.value).job else Fail(c).job)
  {
    hide Begin, Validate, Judge, Run, GpuOK, PlacementOK, InterfacesOK, PrimaryOnNAD;
    var r := api.Call(k, GetGuest(k));
    if r.GuestIs? {
      return Some(r.guest);
    }
    if r != NotFound {
      return None;
    }
    var rendered := GuestSpec.RenderSwiftGuest(k.name, c.before.clusterLabel, c.before.config.value, x);
    r := api.Call(k, CreateGuest(k, rendered));
    return if r.GuestIs? then Some(r.guest) else None;
  }

  method BackendDelete(api: Api, k: Key, c: Context) returns (err: bool, done: bool)
    requires api.Valid() && api.IsAt(k, ReadDoomed(c))
    modifies api
    ensures api.Valid() && old(api.trace) <= api.trace
    ensures api.IsAt(k,
              if err then Persist(c, None, Retry)
              else if !done then Persist(c, None, Later)
              else Persist(c.(mem := c.mem.(finalizer := false)), None, Forget))
  {
    hide Begin, ConfigOK, Validate, Judge, Fail, Run, RenderFor;
    var r := api.Call(k, GetGuest(k));
    if r.GuestIs? {
      if !r.guest.terminating {
        r := api.Call(k, DeleteGuest(k));
        if r != Done && r != NotFound {
          return true, false;
        }
      }
      return false, false;
    }
    if r != NotFound {
      return true, false;
    }
    r := api.Call(k, DeleteSeed(SeedKey(k)));
    if r != Done && r != NotFound {
      return true, false;
    }
    return false, true;
  }

  method EnsureNodeProviderID(api: Api, k: Key, c: Context, g: Guest) returns (err: bool, patched: bool)
    requires api.Valid() && api.IsAt(k, ReadKubeconfig(c, g))
    modifies api
    ensures api.Valid() && old(api.trace) <= api.trace
    ensures api.IsAt(k, Persist(c, Some(g), if err then Retry else if !patched then Later else Forget))
  {
    hide Begin, ConfigOK, Validate, Judge, Fail, Run, RenderFor, Mirror;
    var r := api.Call(k, GetSecret(Key(k.ns, c.before.clusterLabel + "-kubeconfig")));
    if !r.SecretIs? {
      return r != NotFound, false;
    }
    if !r.secret.hasValue || !r.secret.parses {
      return true, false;
    }
    err, patched := PatchEmptyProviderID(api, k, c, g);
  }

  // The rest of it, once there is a client for the workload cluster.
  method PatchEmptyProviderID(api: Api, k: Key, c: Context, g: Guest) returns (err: bool, patched: bool)
    requires api.Valid() && api.IsAt(k, ReadNode(c, g))
    modifies api
    ensures api.Valid() && old(api.trace) <= api.trace
    ensures api.IsAt(k, Persist(c, Some(g), if err then Retry else if !patched then Later else Forget))
  {
    hide Begin, ConfigOK, Validate, Judge, Fail, Run, RenderFor, Mirror;
    var r := api.Call(k, GetNode(NodeOf(k, c)));
    if !r.NodeIs? {
      return false, false;
    }
    if r.id == ProviderID(k) {
      ProviderIDNotEmpty(k);
      return false, true;
    }
    if r.id != "" {
      return false, true;
    }
    r := api.Call(k, PatchNode(NodeOf(k, c), ProviderID(k)));
    return r != Done, r == Done;
  }

  lemma ProviderIDNotEmpty(k: Key)
    ensures ProviderID(k) != ""
  {
    assert |ProviderID(k)| >= |ProviderScheme|;
  }

  // What the code inherits: wherever in a run it starts, it ends in a world of a run.
  method ReconcileSafely(api: Api, k: Key) returns (verdict: Verdict)
    requires api.Valid() && Safety.Reachable(api.origin) && api.IsAt(k, ReadMachine)
    modifies api
    ensures api.Gone(k, verdict) && Safety.Reachable(api.w)
  {
    verdict := Reconcile(api, k);
    Safety.ReachableOnward(api.origin, api.trace);
  }
}
