/** The machine controller as a coroutine: a worker says which call it makes next and how
    it goes on with the reply. One worker position per API call of a reconcile. */
module Controller {
  import opened Prelude
  import opened Names
  import opened GuestConfig
  import opened ClusterConfig
  import opened MachineObject
  import opened ApiServer
  import GuestSpec
  import GuestStatus

  const BootstrapDataSecretKey := "value"

  // `mem` is the in-memory copy that the deferred patch writes back.
  datatype Context = Context(before: Machine, mem: Owned, owner: CapiMachine, cluster: Cluster)

  // Forget: no requeue. Later: requeue after a delay. Retry: an error, requeued with backoff.
  datatype Verdict = Forget | Later | Retry

  datatype Worker =
    | ReadMachine
    | ReadOwner(ksm: Machine)
    | ReadCluster(ksm: Machine, owner: CapiMachine)
    | ReadBootstrap(c: Context)
    | ReadInfra(c: Context)
    | ReadSeed(c: Context, x: Option<GuestSpec.Exposure>)
    | MakeSeed(c: Context, x: Option<GuestSpec.Exposure>)
    | MoveSeed(c: Context, x: Option<GuestSpec.Exposure>, found: Seed)
    | ReadGuest(c: Context, x: Option<GuestSpec.Exposure>)
    | MakeGuest(c: Context, x: Option<GuestSpec.Exposure>)
    | ReadKubeconfig(c: Context, seen: Guest)
    | ReadNode(c: Context, seen: Guest)
    | WriteNode(c: Context, seen: Guest)
    | ReadDoomed(c: Context)
    | KillGuest(c: Context)
    | KillSeed(c: Context)
    | Persist(c: Context, last: Option<Guest>, verdict: Verdict)

  // A worker that has passed a check keeps it: the next call is then always defined.
  predicate WorkerOK(x: Worker) {
    match x
    case ReadOwner(m) => m.owner.Some?
    case ReadSeed(c, x) => ConfigOK(c.before.config, x.Some?)
    case MakeSeed(c, x) => ConfigOK(c.before.config, x.Some?)
    case MoveSeed(c, x, _) => ConfigOK(c.before.config, x.Some?)
    case ReadGuest(c, x) => ConfigOK(c.before.config, x.Some?)
    case MakeGuest(c, x) => ConfigOK(c.before.config, x.Some?)
    case _ => true
  }

  type Job = x: Worker | WorkerOK(x) witness ReadMachine

  datatype Progress = Continue(job: Job) | Finish(verdict: Verdict, last: Option<Guest>)

  function SecretName(c: Context): string {
    if c.owner.dataSecret.Some? then c.owner.dataSecret.value else ""
  }

  function DesiredSource(secret: string): UserDataFrom {
    SecretKeyRef(secret, BootstrapDataSecretKey)
  }

  function DesiredSeed(k: Key, secret: string): Seed {
    Seed(None, Some(DesiredSource(secret)),
         map["datasource" := "NoCloud",
             "metaData" := "instance-id: " + k.name + "\nlocal-hostname: " + k.name + "\n"])
  }

  // The seed needs no migration.
  predicate SeedCurrent(seed: Seed, secret: string) {
    seed.userData in {None, Some("")} && seed.userDataFrom == Some(DesiredSource(secret))
  }

  function Migrated(seed: Seed, secret: string): Seed {
    seed.(userData := None, userDataFrom := Some(DesiredSource(secret)))
  }

  function ExposurePort(ep: EndpointConfig): int {
    if ep.service.Some? && ep.service.value.port != 0 then ep.service.value.port else DefaultAPIServerPort
  }

  function ExposureOf(cluster: string, ep: Option<EndpointConfig>): Option<GuestSpec.Exposure> {
    if ep.None? || ep.value.mode != ModeService then None
    else Some(GuestSpec.Exposure(PoolLabel(cluster), ExposurePort(ep.value)))
  }

  function RenderFor(k: Key, c: Context, x: Option<GuestSpec.Exposure>): GuestSpec.Rendered
    requires c.before.config.Some?
  {
    GuestSpec.Render(k.name, c.before.clusterLabel, c.before.config.value, x)
  }

  function NodeOf(k: Key, c: Context): NodeKey {
    NodeKey(k.ns, c.before.clusterLabel, k.name)
  }

  function NextCall(k: Key, x: Job): Call {
    match x
    case ReadMachine => GetMachine(k)
    case ReadOwner(m) => GetOwner(Key(k.ns, m.owner.value))
    case ReadCluster(m, _) => GetCluster(Key(k.ns, m.clusterLabel))
    case ReadBootstrap(c) => GetSecret(Key(k.ns, SecretName(c)))
    case ReadInfra(c) => GetInfra(Key(k.ns, c.cluster.infraRef))
    case ReadSeed(_, _) => GetSeed(SeedKey(k))
    case MakeSeed(c, _) => CreateSeed(SeedKey(k), DesiredSeed(k, SecretName(c)))
    case MoveSeed(c, _, found) => UpdateSeed(SeedKey(k), found, Migrated(found, SecretName(c)))
    case ReadGuest(_, _) => GetGuest(k)
    case MakeGuest(c, x) => CreateGuest(k, RenderFor(k, c, x))
    case ReadKubeconfig(c, _) => GetSecret(Key(k.ns, c.before.clusterLabel + "-kubeconfig"))
    case ReadNode(c, _) => GetNode(NodeOf(k, c))
    case WriteNode(c, _) => PatchNode(NodeOf(k, c), ProviderID(k))
    case ReadDoomed(_) => GetGuest(k)
    case KillGuest(_) => DeleteGuest(k)
    case KillSeed(_) => DeleteSeed(SeedKey(k))
    case Persist(c, _, _) => PatchMachine(k, c.before.owned, c.mem)
  }

  function Fail(c: Context): (p: Progress)
    ensures p.Continue?
  {
    Continue(Persist(c.(mem := Broken(c.mem)), None, Retry))
  }

  // After the owner, the cluster and the pause check: deletion or normal reconcile.
  function Begin(c: Context): (p: Progress)
    ensures p.Continue?
  {
    if c.before.deleting then Continue(ReadDoomed(c))
    else
      var c := c.(mem := c.mem.(finalizer := true));
      if !c.cluster.infraReady then
        Continue(Persist(c.(mem := NotReady(c.mem, WaitingForClusterInfrastructure, "")), None, Forget))
      else if c.owner.dataSecret.None? then
        Continue(Persist(c.(mem := NotReady(c.mem, WaitingForBootstrapData, "")), None, Forget))
      else Continue(ReadBootstrap(c))
  }

  // The backend's checks, before its first call.
  function Validate(c: Context, x: Option<GuestSpec.Exposure>): (p: Progress)
    ensures p.Continue?
  {
    if ConfigOK(c.before.config, x.Some?) then Continue(ReadSeed(c, x)) else Fail(c)
  }

  // What a guest's status makes of the machine.
  function Mirror(k: Key, c: Context, g: Guest): Owned {
    match GuestStatus.Observe(g.status)
    case Broken => Broken(c.mem)
    case Waiting(reason, message) => NotReady(c.mem, reason, message)
    case Up(addresses) => Provision(c.mem, ProviderID(k), addresses, c.owner.failureDomain)
  }

  function Judge(k: Key, c: Context, g: Guest): (p: Progress)
    ensures p.Continue?
  {
    var c' := c.(mem := Mirror(k, c, g));
    match GuestStatus.Observe(g.status)
    case Broken => Continue(Persist(c', Some(g), Retry))
    case Waiting(_, _) => Continue(Persist(c', Some(g), Later))
    case Up(_) => Continue(ReadKubeconfig(c', g))
  }

  // How a worker goes on with the reply to its call.
  function Resume(k: Key, x: Job, r: Reply): Progress {
    match x
    case ReadMachine =>
      (match r
       case MachineIs(m) => if m.owner.None? then Finish(Forget, None) else Continue(ReadOwner(m))
       case NotFound => Finish(Forget, None)
       case _ => Finish(Retry, None))
    case ReadOwner(m) =>
      (match r
       case OwnerIs(o) => if m.clusterLabel == "" then Finish(Forget, None) else Continue(ReadCluster(m, o))
       case _ => Finish(Retry, None))
    case ReadCluster(m, o) =>
      (match r
       case ClusterIs(cl) =>
         if cl.paused || m.paused then Finish(Forget, None)
         else if m.backendType != SwiftGuestBackend then Finish(Retry, None)
         else Begin(Context(m, m.owned, o, cl))
       case _ => Finish(Forget, None))
    case ReadBootstrap(c) =>
      (match r
       case SecretIs(s) =>
         if !s.hasValue then Continue(Persist(c, None, Retry))
         else if c.owner.controlPlane && c.cluster.infraRef != "" then Continue(ReadInfra(c))
         else Validate(c, None)
       case _ => Continue(Persist(c, None, Retry)))
    case ReadInfra(c) =>
      (match r
       case InfraIs(ep) => Validate(c, ExposureOf(c.before.clusterLabel, ep))
       case _ => Continue(Persist(c, None, Retry)))
    case ReadSeed(c, x) =>
      (match r
       case SeedIs(seed) =>
         if SeedCurrent(seed, SecretName(c)) then Continue(ReadGuest(c, x)) else Continue(MoveSeed(c, x, seed))
       case NotFound => Continue(MakeSeed(c, x))
       case _ => Fail(c))
    case MakeSeed(c, x) => if r == Done then Continue(ReadGuest(c, x)) else Fail(c)
    case MoveSeed(c, x, _) => if r == Done then Continue(ReadGuest(c, x)) else Fail(c)
    case ReadGuest(c, x) =>
      (match r
       case GuestIs(g) => Judge(k, c, g)
       case NotFound => Continue(MakeGuest(c, x))
       case _ => Fail(c))
    case MakeGuest(c, x) => if r.GuestIs? then Judge(k, c, r.guest) else Fail(c)
    case ReadKubeconfig(c, g) =>
      (match r
       case SecretIs(s) =>
         if s.hasValue && s.parses then Continue(ReadNode(c, g)) else Continue(Persist(c, Some(g), Retry))
       case NotFound => Continue(Persist(c, Some(g), Later))
       case _ => Continue(Persist(c, Some(g), Retry)))
    case ReadNode(c, g) =>
      (match r
       case NodeIs(id) => if id == "" then Continue(WriteNode(c, g)) else Continue(Persist(c, Some(g), Forget))
       case _ => Continue(Persist(c, Some(g), Later)))
    case WriteNode(c, g) => Continue(Persist(c, Some(g), if r == Done then Forget else Retry))
    case ReadDoomed(c) =>
      (match r
       case GuestIs(g) => if g.terminating then Continue(Persist(c, None, Later)) else Continue(KillGuest(c))
       case NotFound => Continue(KillSeed(c))
       case _ => Continue(Persist(c, None, Retry)))
    case KillGuest(c) => Continue(Persist(c, None, if r in {Done, NotFound} then Later else Retry))
    case KillSeed(c) =>
      if r in {Done, NotFound} then Continue(Persist(c.(mem := c.mem.(finalizer := false)), None, Forget))
      else Continue(Persist(c, None, Retry))
    case Persist(_, last, verdict) => Finish(if r == Done then verdict else Retry, last)
  }

  // Every reconcile is a bounded number of calls.
  function CallsLeft(x: Job): nat {
    match x
    case ReadMachine => 12
    case ReadOwner(_) => 11
    case ReadCluster(_, _) => 10
    case ReadBootstrap(_) => 9
    case ReadInfra(_) => 8
    case ReadSeed(_, _) => 7
    case MakeSeed(_, _) => 6
    case MoveSeed(_, _, _) => 6
    case ReadGuest(_, _) => 5
    case MakeGuest(_, _) => 4
    case ReadKubeconfig(_, _) => 3
    case ReadNode(_, _) => 2
    case WriteNode(_, _) => 1
    case ReadDoomed(_) => 2
    case KillGuest(_) => 1
    case KillSeed(_) => 1
    case Persist(_, _, _) => 0
  }

  lemma CallsRunOut(k: Key, x: Job, r: Reply)
    requires Resume(k, x, r).Continue?
    ensures CallsLeft(Resume(k, x, r).job) < CallsLeft(x)
  {
  }
}
