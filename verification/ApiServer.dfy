/** The endpoint configuration of a KubeSwiftCluster, read by both controllers. */
module ClusterConfig {
  import opened Prelude

  datatype ServiceConfig = ServiceConfig(
    typ: string, port: int, annotations: map<string, string>, loadBalancerClass: Option<string>)

  datatype EndpointConfig = EndpointConfig(mode: string, service: Option<ServiceConfig>)

  const ModeExternal := "External"
  const ModeService := "Service"
  const DefaultAPIServerPort := 6443

  // The configuration asks for a Service, by its field alone.
  predicate ServiceMode(ep: Option<EndpointConfig>) {
    ep.Some? && ep.value.mode == "Service"
  }
}

/** The KubeSwiftMachine object: what users write and what the controller writes. */
module MachineObject {
  import opened Prelude
  import opened Names
  import opened GuestConfig
  import GuestStatus

  datatype Ready = Ready(status: bool, reason: string, message: string)

  // The fields the machine controller writes.
  datatype Owned = Owned(
    finalizer: bool, providerID: string, provisioned: Option<bool>, ready: Option<Ready>,
    addresses: seq<GuestStatus.Address>, failureDomain: string)

  datatype Machine = Machine(
    owner: Option<string>, clusterLabel: string, paused: bool, backendType: string, config: Option<Config>,
    deleting: bool, otherFinalizers: bool, owned: Owned)

  const Fresh := Owned(false, "", None, None, [], "")

  const SwiftGuestBackend := "SwiftGuest"
  const VMFailed := "VMFailed"
  const VMProvisioned := "VMProvisioned"
  const WaitingForClusterInfrastructure := "WaitingForClusterInfrastructure"
  const WaitingForBootstrapData := "WaitingForBootstrapData"

  function NotReady(o: Owned, reason: string, message: string): Owned {
    o.(provisioned := Some(false), ready := Some(Ready(false, reason, message)))
  }

  // The text of an error is not modelled.
  function Broken(o: Owned): Owned {
    NotReady(o, VMFailed, "")
  }

  function Provision(o: Owned, id: string, addresses: seq<GuestStatus.Address>, failureDomain: string): Owned {
    o.(providerID := id, addresses := addresses, failureDomain := failureDomain,
       provisioned := Some(true), ready := Some(Ready(true, VMProvisioned, "")))
  }

  // A patch writes the fields that differ between the object as read and the object as left.
  function Patched(before: Owned, after: Owned, stored: Owned): Owned {
    Owned(
      if after.finalizer != before.finalizer then after.finalizer else stored.finalizer,
      if after.providerID != before.providerID then after.providerID else stored.providerID,
      if after.provisioned != before.provisioned then after.provisioned else stored.provisioned,
      if after.ready != before.ready then after.ready else stored.ready,
      if after.addresses != before.addresses then after.addresses else stored.addresses,
      if after.failureDomain != before.failureDomain then after.failureDomain else stored.failureDomain)
  }
}

/** The API servers: the management cluster's objects, the workload clusters' Nodes, the
    calls a controller makes on them, and the ways a call can fail. */
module ApiServer {
  import opened Prelude
  import opened Names
  import opened ClusterConfig
  import opened MachineObject
  import GuestSpec
  import GuestStatus

  datatype CapiMachine = CapiMachine(dataSecret: Option<string>, controlPlane: bool, failureDomain: string)

  datatype Cluster = Cluster(infraReady: bool, infraRef: string, paused: bool)

  // `hasValue`: the secret's data has the key "value"; `parses`: that value is a usable kubeconfig.
  datatype Secret = Secret(hasValue: bool, parses: bool)

  datatype UserDataFrom = SecretKeyRef(name: string, key: string) | OtherSource(text: string)

  datatype Seed = Seed(userData: Option<string>, userDataFrom: Option<UserDataFrom>, other: map<string, string>)

  datatype Guest = Guest(rendered: GuestSpec.Rendered, terminating: bool, status: GuestStatus.Status)

  // What the machine controller reads and never writes.
  datatype Environment = Environment(
    owners: map<Key, CapiMachine>, clusters: map<Key, Cluster>,
    infras: map<Key, Option<EndpointConfig>>, secrets: map<Key, Secret>)

  datatype Store = Store(
    machines: map<Key, Machine>, guests: map<Key, Guest>, seeds: map<Key, Seed>,
    nodes: map<NodeKey, string>, env: Environment)

  datatype Call =
    | GetMachine(k: Key)
    | GetOwner(k: Key)
    | GetCluster(k: Key)
    | GetInfra(k: Key)
    | GetSecret(k: Key)
    | GetSeed(k: Key)
    | CreateSeed(k: Key, seed: Seed)
    | UpdateSeed(k: Key, found: Seed, seed: Seed)
    | DeleteSeed(k: Key)
    | GetGuest(k: Key)
    | CreateGuest(k: Key, rendered: GuestSpec.Rendered)
    | DeleteGuest(k: Key)
    | GetNode(n: NodeKey)
    | PatchNode(n: NodeKey, id: string)
    | PatchMachine(k: Key, before: Owned, after: Owned)

  datatype Reply =
    | Done
    | NotFound
    | Failed
    | MachineIs(machine: Machine)
    | OwnerIs(owner: CapiMachine)
    | ClusterIs(cluster: Cluster)
    | InfraIs(endpoint: Option<EndpointConfig>)
    | SecretIs(secret: Secret)
    | SeedIs(seed: Seed)
    | GuestIs(guest: Guest)
    | NodeIs(id: string)

  // A machine whose deletion was requested goes away with its last finalizer.
  function PutMachine(ms: map<Key, Machine>, k: Key, m: Machine): map<Key, Machine> {
    if m.deleting && !m.owned.finalizer && !m.otherFinalizers then ms - {k} else ms[k := m]
  }

  // The API server's own semantics of one call.
  function Exec(s: Store, call: Call): (Store, Reply) {
    match call
    case GetMachine(k) => (s, if k in s.machines then MachineIs(s.machines[k]) else NotFound)
    case GetOwner(k) => (s, if k in s.env.owners then OwnerIs(s.env.owners[k]) else NotFound)
    case GetCluster(k) => (s, if k in s.env.clusters then ClusterIs(s.env.clusters[k]) else NotFound)
    case GetInfra(k) => (s, if k in s.env.infras then InfraIs(s.env.infras[k]) else NotFound)
    case GetSecret(k) => (s, if k in s.env.secrets then SecretIs(s.env.secrets[k]) else NotFound)
    case GetSeed(k) => (s, if k in s.seeds then SeedIs(s.seeds[k]) else NotFound)
    case CreateSeed(k, seed) =>
      if k in s.seeds then (s, Failed) else (s.(seeds := s.seeds[k := seed]), Done)
    case UpdateSeed(k, found, seed) =>
      // An object changed since it was read is a conflict.
      if k !in s.seeds then (s, NotFound)
      else if s.seeds[k] != found then (s, Failed)
      else (s.(seeds := s.seeds[k := seed]), Done)
    case DeleteSeed(k) =>
      if k in s.seeds then (s.(seeds := s.seeds - {k}), Done) else (s, NotFound)
    case GetGuest(k) => (s, if k in s.guests then GuestIs(s.guests[k]) else NotFound)
    case CreateGuest(k, r) =>
      if k in s.guests then (s, Failed)
      else
        var g := Guest(r, false, GuestStatus.Blank);
        (s.(guests := s.guests[k := g]), GuestIs(g))
    case DeleteGuest(k) =>
      if k in s.guests then (s.(guests := s.guests[k := s.guests[k].(terminating := true)]), Done)
      else (s, NotFound)
    case GetNode(n) => (s, if n in s.nodes then NodeIs(s.nodes[n]) else NotFound)
    case PatchNode(n, id) =>
      // A merge patch; an API server that refuses to change an ID shows as a lost request.
      if n !in s.nodes then (s, NotFound) else (s.(nodes := s.nodes[n := id]), Done)
    case PatchMachine(k, before, after) =>
      if k !in s.machines then (s, NotFound)
      else
        var m := s.machines[k];
        // A finalizer cannot be added to an object that is being deleted.
        if m.deleting && !m.owned.finalizer && after.finalizer && !before.finalizer then (s, Failed)
        else
          var m' := m.(owned := Patched(before, after, m.owned));
          (s.(machines := PutMachine(s.machines, k, m')), Done)
  }

  // A call can be lost before it takes effect, or take effect and lose its reply.
  datatype Fault = NoFault | LostRequest | LostReply

  function Do(s: Store, call: Call, f: Fault): (Store, Reply) {
    match f
    case NoFault => Exec(s, call)
    case LostRequest => (s, Failed)
    case LostReply => (Exec(s, call).0, Failed)
  }
}
