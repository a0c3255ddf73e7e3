/** Rendering: from a machine's configuration to the SwiftGuest and SwiftSeedProfile objects. */
module GuestSpec {
  import opened Prelude
  import opened Names
  import opened GuestConfig

  datatype Exposure = Exposure(poolLabel: string, port: int)

  datatype RenderedInterface = RenderedInterface(name: string, primary: bool, networkRef: Option<string>)

  datatype Storage = Storage(storageClassName: string, accessMode: string)

  datatype GpuClaim = GpuClaim(
    templateName: Option<string>, claimName: Option<string>,
    requestName: Option<string>, tier: Option<string>, hugepages: Option<string>)

  datatype GuestPort = GuestPort(name: string, port: int, targetPort: int)

  datatype GuestNetwork = GuestNetwork(binding: string, ports: seq<GuestPort>)

  datatype Spec = Spec(
    imageRef: string, guestClassRef: string, seedProfileRef: string,
    interfaces: Option<seq<RenderedInterface>>, storage: Option<Storage>, nodeName: Option<string>,
    gpuProfileRef: Option<string>, gpuClaim: Option<GpuClaim>, network: Option<GuestNetwork>)

  datatype Rendered = Rendered(spec: Spec, labels: map<string, string>)

  const MachineLabelKey := "infrastructure.cluster.x-k8s.io/kubeswiftmachine"
  const ClusterNameLabel := "cluster.x-k8s.io/cluster-name"
  const PoolLabelKey := "swift.kubeswift.io/pool"
  const APIServerPortName := "apiserver"
  const NatBinding := "nat"

  lemma LabelKeysDistinct()
    ensures MachineLabelKey != ClusterNameLabel && MachineLabelKey != PoolLabelKey && ClusterNameLabel != PoolLabelKey
  {
    assert |MachineLabelKey| == 48 && |ClusterNameLabel| == 29 && |PoolLabelKey| == 23;
  }

  // An unset string field is left out of the rendered object.
  function Given(s: string): Option<string> {
    if s == "" then None else Some(s)
  }

  function RenderInterface(i: Interface): RenderedInterface {
    RenderedInterface(i.name, i.primary, Given(i.networkRef))
  }

  function RenderInterfaces(ifaces: seq<Interface>): (r: seq<RenderedInterface>)
    ensures |r| == |ifaces|
    ensures forall i | 0 <= i < |r| :: r[i] == RenderInterface(ifaces[i])
  {
    seq(|ifaces|, i requires 0 <= i < |ifaces| => RenderInterface(ifaces[i]))
  }

  function InterfacesOf(cfg: Config): Option<seq<RenderedInterface>> {
    if |cfg.interfaces| > 0 then Some(RenderInterfaces(cfg.interfaces))
    else if cfg.networkRef != "" then Some([RenderedInterface("primary", true, Some(cfg.networkRef))])
    else if cfg.nodeNetworkRef != "" then
      Some([RenderedInterface("mgmt", true, None), RenderedInterface("node", false, Some(cfg.nodeNetworkRef))])
    else None
  }

  function ClaimOf(g: Gpu): GpuClaim {
    GpuClaim(
      Given(g.claimTemplate),
      if g.claimTemplate != "" then None else Given(g.claim),
      Given(g.request), Given(g.tier), Given(g.hugepages))
  }

  function NetworkOf(x: Option<Exposure>): Option<GuestNetwork> {
    if x.None? then None
    else Some(GuestNetwork(NatBinding, [GuestPort(APIServerPortName, x.value.port, x.value.port)]))
  }

  function LabelsOf(machine: string, cluster: string, x: Option<Exposure>): map<string, string> {
    var labels := map[ClusterNameLabel := cluster][MachineLabelKey := machine];
    if x.None? then labels else labels[PoolLabelKey := x.value.poolLabel]
  }

  function SpecOf(machine: string, cfg: Config, x: Option<Exposure>): Spec {
    Spec(cfg.imageRef, cfg.guestClassRef, SeedName(machine),
         InterfacesOf(cfg),
         if cfg.storageClass != "" then Some(Storage(cfg.storageClass, "ReadWriteOnce")) else None,
         Given(cfg.nodeName),
         if cfg.gpu.Some? then Given(cfg.gpu.value.profile) else None,
         if cfg.gpu.Some? && cfg.gpu.value.profile == "" then Some(ClaimOf(cfg.gpu.value)) else None,
         NetworkOf(x))
  }

  function Render(machine: string, cluster: string, cfg: Config, x: Option<Exposure>): Rendered {
    Rendered(SpecOf(machine, cfg, x), LabelsOf(machine, cluster, x))
  }

  // ---- The rendering code: it fills the spec field by field. ----

  method RenderInterfaceList(ifaces: seq<Interface>) returns (out: seq<RenderedInterface>)
    ensures out == RenderInterfaces(ifaces)
  {
    out := [];
    for i := 0 to |ifaces|
      invariant out == RenderInterfaces(ifaces[..i])
    {
      var m := RenderedInterface(ifaces[i].name, false, None);
      if ifaces[i].primary {
        m := m.(primary := true);
      }
      if ifaces[i].networkRef != "" {
        m := m.(networkRef := Some(ifaces[i].networkRef));
      }
      out := out + [m];
    }
    assert ifaces[..|ifaces|] == ifaces;
  }

  method RenderClaim(gpu: Gpu) returns (claim: GpuClaim)
    ensures claim == ClaimOf(gpu)
  {
    claim := GpuClaim(None, None, None, None, None);
    if gpu.claimTemplate != "" {
      claim := claim.(templateName := Some(gpu.claimTemplate));
    } else if gpu.claim != "" {
      claim := claim.(claimName := Some(gpu.claim));
    }
    if gpu.request != "" {
      claim := claim.(requestName := Some(gpu.request));
    }
    if gpu.tier != "" {
      claim := claim.(tier := Some(gpu.tier));
    }
    if gpu.hugepages != "" {
      claim := claim.(hugepages := Some(gpu.hugepages));
    }
  }

  method RenderLabels(machine: string, cluster: string, x: Option<Exposure>) returns (labels: map<string, string>)
    ensures labels == LabelsOf(machine, cluster, x)
  {
    labels := map[];
    labels := labels[ClusterNameLabel := cluster];
    labels := labels[MachineLabelKey := machine];
    if x.Some? {
      labels := labels[PoolLabelKey := x.value.poolLabel];
    }
  }

  method RenderSwiftGuest(machine: string, cluster: string, cfg: Config, x: Option<Exposure>) returns (guest: Rendered)
    ensures guest == Render(machine, cluster, cfg, x)
  {
    ghost var want := SpecOf(machine, cfg, x);
    var spec := Spec(cfg.imageRef, cfg.guestClassRef, SeedName(machine), None, None, None, None, None, None);
    if |cfg.interfaces| > 0 {
      var list := RenderInterfaceList(cfg.interfaces);
      spec := spec.(interfaces := Some(list));
    } else if cfg.networkRef != "" {
      spec := spec.(interfaces := Some([RenderedInterface("primary", true, Some(cfg.networkRef))]));
    } else if cfg.nodeNetworkRef != "" {
      spec := spec.(interfaces := Some([RenderedInterface("mgmt", true, None),
                                        RenderedInterface("node", false, Some(cfg.nodeNetworkRef))]));
    }
    assert spec == want.(storage := None, nodeName := None, gpuProfileRef := None, gpuClaim := None, network := None);
    if cfg.storageClass != "" {
      spec := spec.(storage := Some(Storage(cfg.storageClass, "ReadWriteOnce")));
    }
    assert spec == want.(nodeName := None, gpuProfileRef := None, gpuClaim := None, network := None);
    if cfg.nodeName != "" {
      spec := spec.(nodeName := Some(cfg.nodeName));
    }
    assert spec == want.(gpuProfileRef := None, gpuClaim := None, network := None);
    if cfg.gpu.Some? {
      var gpu := cfg.gpu.value;
      if gpu.profile != "" {
        spec := spec.(gpuProfileRef := Some(gpu.profile));
      } else {
        var claim := RenderClaim(gpu);
        spec := spec.(gpuClaim := Some(claim));
      }
    }
    assert spec == want.(network := None);
    if x.Some? {
      var port := x.value.port;
      spec := spec.(network := Some(GuestNetwork(NatBinding, [GuestPort(APIServerPortName, port, port)])));
    }
    var labels := RenderLabels(machine, cluster, x);
    guest := Rendered(spec, labels);
  }

  // ---- What every rendered guest satisfies, on the rendered object alone. ----

  predicate RendersPrimary(i: RenderedInterface) {
    i.primary
  }

  predicate PrimaryRidesNAD(i: RenderedInterface) {
    i.primary && i.networkRef.Some?
  }

  ghost predicate InterfaceListOK(ifaces: Option<seq<RenderedInterface>>) {
    ifaces.Some? ==>
      && ExistsOne(ifaces.value, RendersPrimary)
      && forall i | i in ifaces.value :: !i.primary ==> i.networkRef.Some?
  }

  ghost predicate HasNADPrimary(spec: Spec) {
    spec.interfaces.Some? && exists i :: i in spec.interfaces.value && PrimaryRidesNAD(i)
  }

  ghost predicate GpuRenderOK(spec: Spec) {
    && !(spec.gpuProfileRef.Some? && spec.gpuClaim.Some?)
    && (spec.gpuProfileRef.Some? || spec.gpuClaim.Some? ==> spec.nodeName.None?)
    && (spec.gpuClaim.Some? ==>
          && spec.gpuClaim.value.templateName.Some? != spec.gpuClaim.value.claimName.Some?
          && spec.gpuClaim.value.tier in {None, Some("pcie")})
  }

  ghost predicate StorageOK(spec: Spec) {
    spec.storage.Some? ==> spec.storage.value.storageClassName != "" && spec.storage.value.accessMode == "ReadWriteOnce"
  }

  ghost predicate NetworkOK(spec: Spec) {
    spec.network.Some? ==>
      && spec.network.value.binding == "nat"
      && (exists p :: spec.network.value.ports == [GuestPort("apiserver", p, p)])
      && !HasNADPrimary(spec)
  }

  ghost predicate WellFormed(machine: string, g: Rendered) {
    && g.spec.imageRef != "" && g.spec.guestClassRef != ""
    && g.spec.seedProfileRef == SeedName(machine)
    && InterfaceListOK(g.spec.interfaces)
    && GpuRenderOK(g.spec)
    && StorageOK(g.spec)
    && NetworkOK(g.spec)
    && "infrastructure.cluster.x-k8s.io/kubeswiftmachine" in g.labels
    && g.labels["infrastructure.cluster.x-k8s.io/kubeswiftmachine"] == machine
    && (g.spec.network.Some? <==> PoolLabelKey in g.labels)
  }

  lemma RenderedInterfacesOK(cfg: Config)
    requires InterfacesOK(cfg)
    ensures InterfaceListOK(InterfacesOf(cfg))
  {
    if |cfg.interfaces| > 0 {
      var xs, ys := cfg.interfaces, RenderInterfaces(cfg.interfaces);
      CountOne(xs, IsPrimary);
      ExistsOneTransfers(xs, IsPrimary, ys, RendersPrimary);
    } else if cfg.networkRef != "" || cfg.nodeNetworkRef != "" {
      var ys := InterfacesOf(cfg).value;
      assert RendersPrimary(ys[0]);
      assert ExistsOne(ys, RendersPrimary);
    }
  }

  lemma {:induction false} FirstPrimaryIsThePrimary(xs: seq<Interface>)
    requires ExistsOne(xs, IsPrimary)
    ensures FirstPrimaryOnNAD(xs) <==> exists i :: i in xs && i.primary && i.networkRef != ""
  {
    var p :| 0 <= p < |xs| && IsPrimary(xs[p]) && forall j | 0 <= j < |xs| && IsPrimary(xs[j]) :: j == p;
    if !xs[0].primary {
      var rest := xs[1..];
      assert forall j | 0 <= j < |rest| :: rest[j] == xs[j + 1];
      assert IsPrimary(rest[p - 1]);
      assert forall j | 0 <= j < |rest| && IsPrimary(rest[j]) :: j == p - 1;
      FirstPrimaryIsThePrimary(rest);
      assert forall i :: i in xs <==> i == xs[0] || i in rest;
    } else {
      assert forall i :: i in xs && i.primary ==> i == xs[0];
    }
  }

  // The scan over the configuration finds what the rendered object shows.
  lemma PrimaryOnNADIsRendered(machine: string, cfg: Config, x: Option<Exposure>)
    requires InterfacesOK(cfg)
    ensures PrimaryOnNAD(cfg) <==> HasNADPrimary(SpecOf(machine, cfg, x))
  {
    var spec := SpecOf(machine, cfg, x);
    if |cfg.interfaces| > 0 {
      var xs, ys := cfg.interfaces, RenderInterfaces(cfg.interfaces);
      CountOne(xs, IsPrimary);
      FirstPrimaryIsThePrimary(xs);
      if PrimaryOnNAD(cfg) {
        var i :| i in xs && i.primary && i.networkRef != "";
        var n :| 0 <= n < |xs| && xs[n] == i;
        assert ys[n] in ys && PrimaryRidesNAD(ys[n]);
      }
      if HasNADPrimary(spec) {
        var r :| r in ys && PrimaryRidesNAD(r);
        var n :| 0 <= n < |ys| && ys[n] == r;
        assert xs[n] in xs;
      }
    } else if cfg.networkRef != "" {
      var r := spec.interfaces.value[0];
      assert r in spec.interfaces.value && PrimaryRidesNAD(r);
    }
  }

  lemma OneGpuRef(g: Gpu)
    requires ExistsOne(GpuRefs(g), NonEmpty)
    ensures (g.claimTemplate != "") != (g.claim != "") || g.profile != ""
    ensures g.profile != "" ==> g.claimTemplate == "" && g.claim == ""
  {
    var refs := GpuRefs(g);
    var i :| 0 <= i < |refs| && NonEmpty(refs[i]) && forall j | 0 <= j < |refs| && NonEmpty(refs[j]) :: j == i;
    assert refs[0] == g.claimTemplate && refs[1] == g.claim && refs[2] == g.profile;
    assert (NonEmpty(refs[0]) ==> i == 0) && (NonEmpty(refs[1]) ==> i == 1) && (NonEmpty(refs[2]) ==> i == 2);
  }

  lemma RenderWellFormed(machine: string, cluster: string, cfg: Config, x: Option<Exposure>)
    requires ConfigOK(Some(cfg), x.Some?)
    ensures WellFormed(machine, Render(machine, cluster, cfg, x))
    ensures cfg.gpu.Some? ==> SpecOf(machine, cfg, x).gpuProfileRef.Some? != SpecOf(machine, cfg, x).gpuClaim.Some?
  {
    LabelKeysDistinct();
    RenderedInterfacesOK(cfg);
    PrimaryOnNADIsRendered(machine, cfg, x);
    if cfg.gpu.Some? {
      OneGpuRef(cfg.gpu.value);
    }
  }

  // ---- The legacy network fields are sugar for the interface list. ----

  function Desugar(cfg: Config): Config {
    if |cfg.interfaces| > 0 then cfg
    else if cfg.networkRef != "" then
      cfg.(networkRef := "", nodeNetworkRef := "", interfaces := [Interface("primary", cfg.networkRef, true)])
    else if cfg.nodeNetworkRef != "" then
      cfg.(nodeNetworkRef := "",
           interfaces := [Interface("mgmt", "", true), Interface("node", cfg.nodeNetworkRef, false)])
    else cfg
  }

  lemma DesugarPreservesGuest(machine: string, cluster: string, cfg: Config, x: Option<Exposure>)
    requires InterfacesOK(cfg)
    ensures Desugar(cfg).networkRef == "" && Desugar(cfg).nodeNetworkRef == ""
    ensures cfg.interfaces == [] ==>
              SpecOf(machine, cfg, x).interfaces ==
                if cfg.networkRef != "" then Some([RenderedInterface("primary", true, Some(cfg.networkRef))])
                else if cfg.nodeNetworkRef != "" then
                  Some([RenderedInterface("mgmt", true, None), RenderedInterface("node", false, Some(cfg.nodeNetworkRef))])
                else None
    ensures InterfacesOK(Desugar(cfg))
    ensures PrimaryOnNAD(Desugar(cfg)) == PrimaryOnNAD(cfg)
    ensures forall exposed :: ConfigOK(Some(Desugar(cfg)), exposed) == ConfigOK(Some(cfg), exposed)
    ensures Render(machine, cluster, Desugar(cfg), x) == Render(machine, cluster, cfg, x)
  {
    var d := Desugar(cfg);
    if |cfg.interfaces| > 0 {
    } else if cfg.networkRef != "" {
      assert d.interfaces[..0] == [];
      assert Count(d.interfaces, IsPrimary) == 1;
      assert RenderInterfaces(d.interfaces) == InterfacesOf(cfg).value;
    } else if cfg.nodeNetworkRef != "" {
      assert d.interfaces[..1] == [d.interfaces[0]] && d.interfaces[..1][..0] == [];
      assert Count(d.interfaces[..1], IsPrimary) == 1;
      assert Count(d.interfaces, IsPrimary) == 1;
      assert RenderInterfaces(d.interfaces) == InterfacesOf(cfg).value;
      assert d.interfaces[1..] == [d.interfaces[1]];
    }
  }

  // ---- Rendering loses only what a GPU profile leaves unused. ----

  // A machine's configuration without the sugar and, next to a GPU profile, without the options
  // of the claim backend.
  function Normal(cfg: Config): Config {
    var d := Desugar(cfg);
    if d.gpu.Some? && d.gpu.value.profile != ""
    then d.(gpu := Some(d.gpu.value.(request := "", tier := "", hugepages := "")))
    else d
  }

  function Text(s: Option<string>): string {
    if s.Some? then s.value else ""
  }

  function RecoverInterfaces(ifaces: seq<RenderedInterface>): (r: seq<Interface>)
    ensures |r| == |ifaces|
    ensures forall i | 0 <= i < |r| :: r[i] == Interface(ifaces[i].name, Text(ifaces[i].networkRef), ifaces[i].primary)
  {
    seq(|ifaces|, i requires 0 <= i < |ifaces| =>
          Interface(ifaces[i].name, Text(ifaces[i].networkRef), ifaces[i].primary))
  }

  function RecoverGpu(spec: Spec): Option<Gpu> {
    if spec.gpuProfileRef.Some? then Some(Gpu("", "", "", spec.gpuProfileRef.value, "", ""))
    else if spec.gpuClaim.Some? then
      var c := spec.gpuClaim.value;
      Some(Gpu(Text(c.templateName), Text(c.claimName), Text(c.requestName), "", Text(c.tier), Text(c.hugepages)))
    else None
  }

  function RecoverConfig(spec: Spec): Config {
    Config(spec.imageRef, spec.guestClassRef, "", "",
           if spec.interfaces.Some? then RecoverInterfaces(spec.interfaces.value) else [],
           Text(spec.nodeName), RecoverGpu(spec),
           if spec.storage.Some? then spec.storage.value.storageClassName else "")
  }

  function RecoverExposure(g: Rendered): Option<Exposure> {
    if PoolLabelKey in g.labels && g.spec.network.Some? && |g.spec.network.value.ports| == 1 then
      Some(Exposure(g.labels[PoolLabelKey], g.spec.network.value.ports[0].targetPort))
    else None
  }

  lemma InterfacesRecovered(cfg: Config)
    requires InterfacesOK(cfg)
    ensures var ifaces := InterfacesOf(cfg);
            (if ifaces.Some? then RecoverInterfaces(ifaces.value) else []) == Desugar(cfg).interfaces
  {
  }

  lemma GpuRecovered(machine: string, cfg: Config, x: Option<Exposure>)
    requires GpuOK(cfg.gpu)
    ensures RecoverGpu(SpecOf(machine, cfg, x)) == Normal(cfg).gpu
  {
    if cfg.gpu.Some? {
      OneGpuRef(cfg.gpu.value);
    }
  }

  // The round trip: machine, cluster, configuration and exposure can be read off the guest.
  lemma RenderRoundTrip(machine: string, cluster: string, cfg: Config, x: Option<Exposure>)
    requires ConfigOK(Some(cfg), x.Some?)
    ensures var g := Render(machine, cluster, cfg, x);
            && RecoverConfig(g.spec) == Normal(cfg)
            && RecoverExposure(g) == x
            && MachineLabelKey in g.labels && g.labels[MachineLabelKey] == machine
            && ClusterNameLabel in g.labels && g.labels[ClusterNameLabel] == cluster
  {
    LabelKeysDistinct();
    InterfacesRecovered(cfg);
    GpuRecovered(machine, cfg, x);
    hide InterfacesOK, GpuOK, PrimaryOnNAD, InterfacesOf, RecoverInterfaces, RecoverGpu, ClaimOf;
  }

  // Two validated machines get the same guest exactly when they ask for the same one.
  lemma SameGuestExactlyWhen(
    machine: string, cluster: string, cfg: Config, x: Option<Exposure>,
    machine': string, cluster': string, cfg': Config, x': Option<Exposure>)
    requires ConfigOK(Some(cfg), x.Some?) && ConfigOK(Some(cfg'), x'.Some?)
    ensures Render(machine, cluster, cfg, x) == Render(machine', cluster', cfg', x')
            <==> machine == machine' && cluster == cluster' && x == x' && Normal(cfg) == Normal(cfg')
  {
    RenderRoundTrip(machine, cluster, cfg, x);
    RenderRoundTrip(machine', cluster', cfg', x');
    RenderOfNormal(machine, cluster, cfg, x);
    RenderOfNormal(machine', cluster', cfg', x');
    hide Render, ConfigOK, Normal, RecoverConfig, RecoverExposure;
  }

  lemma RenderOfNormal(machine: string, cluster: string, cfg: Config, x: Option<Exposure>)
    requires ConfigOK(Some(cfg), x.Some?)
    ensures Render(machine, cluster, Normal(cfg), x) == Render(machine, cluster, cfg, x)
  {
    DesugarPreservesGuest(machine, cluster, cfg, x);
    hide Desugar, InterfacesOf, InterfacesOK, PrimaryOnNAD;
    assert InterfacesOf(Normal(cfg)) == InterfacesOf(Desugar(cfg)) by { InterfacesOfNormal(cfg); }
  }

  lemma InterfacesOfNormal(cfg: Config)
    ensures InterfacesOf(Normal(cfg)) == InterfacesOf(Desugar(cfg))
  {
  }

  // ---- What is accepted, by what would come of it. ----

  ghost predicate Faithful(machine: string, cluster: string, cfg: Config, x: Option<Exposure>) {
    var g := Render(machine, cluster, cfg, x);
    && WellFormed(machine, g)
    && RecoverConfig(g.spec) == Normal(cfg)
    && (cfg.gpu.Some? ==> cfg.gpu.value.tier in {"", "pcie"})
  }

  lemma RefsFromRendered(g: Gpu)
    requires g.profile != "" ==> g.claimTemplate == "" && g.claim == ""
    requires g.profile == "" ==> (g.claimTemplate != "") != (g.claim != "")
    ensures ExistsOne(GpuRefs(g), NonEmpty)
  {
    var refs := GpuRefs(g);
    var i := if g.claimTemplate != "" then 0 else if g.claim != "" then 1 else 2;
    assert refs[0] == g.claimTemplate && refs[1] == g.claim && refs[2] == g.profile;
    assert NonEmpty(refs[i]) && forall j | 0 <= j < |refs| && NonEmpty(refs[j]) :: j == i;
  }

  lemma GpuFromRendered(machine: string, cfg: Config, x: Option<Exposure>)
    requires GpuRenderOK(SpecOf(machine, cfg, x)) && RecoverGpu(SpecOf(machine, cfg, x)) == Normal(cfg).gpu
    requires cfg.gpu.Some? ==> cfg.gpu.value.tier in {"", "pcie"}
    ensures GpuOK(cfg.gpu) && PlacementOK(cfg)
  {
    if cfg.gpu.Some? {
      RefsFromRendered(cfg.gpu.value);
    }
  }

  lemma InterfacesFromRendered(cfg: Config)
    requires InterfaceListOK(InterfacesOf(cfg))
    requires Desugar(cfg).networkRef == "" && Desugar(cfg).nodeNetworkRef == ""
    ensures InterfacesOK(cfg)
  {
    if |cfg.interfaces| > 0 {
      var xs, ys := cfg.interfaces, RenderInterfaces(cfg.interfaces);
      ExistsOneTransfers(ys, RendersPrimary, xs, IsPrimary);
      CountOne(xs, IsPrimary);
      assert forall i | 0 <= i < |xs| :: ys[i] in ys;
    }
  }

  // The backend accepts a machine exactly when the guest it would render is well formed and says
  // all that was asked for, with a tier it supports.
  lemma AcceptsExactlyWhen(machine: string, cluster: string, cfg: Config, x: Option<Exposure>)
    ensures ConfigOK(Some(cfg), x.Some?) <==> Faithful(machine, cluster, cfg, x)
  {
    hide InterfacesOf, InterfacesOK, GpuOK, PlacementOK, PrimaryOnNAD, HasNADPrimary, GpuRenderOK, RecoverGpu, ClaimOf;
    if ConfigOK(Some(cfg), x.Some?) {
      RenderWellFormed(machine, cluster, cfg, x);
      RenderRoundTrip(machine, cluster, cfg, x);
      TierSupported(cfg.gpu);
    }
    if Faithful(machine, cluster, cfg, x) {
      GpuFromRendered(machine, cfg, x);
      InterfacesFromRendered(cfg);
      PrimaryOnNADIsRendered(machine, cfg, x);
    }
  }

  lemma TierSupported(gpu: Option<Gpu>)
    requires GpuOK(gpu)
    ensures gpu.Some? ==> gpu.value.tier in {"", "pcie"}
  {
  }
}
