/** The SwiftGuest part of a machine's spec, and the two places its rules are written:
    the CEL rules of the CRD and the checks the backend runs. */
module GuestConfig {
  import opened Prelude

  datatype Interface = Interface(name: string, networkRef: string, primary: bool)

  datatype Gpu = Gpu(
    claimTemplate: string, claim: string, request: string,
    profile: string, tier: string, hugepages: string)

  datatype Config = Config(
    imageRef: string, guestClassRef: string,
    networkRef: string, nodeNetworkRef: string, interfaces: seq<Interface>,
    nodeName: string, gpu: Option<Gpu>, storageClass: string)

  const TierPCIe := "pcie"

  // ---- The CEL rules, on the object as submitted: optional fields may be absent. ----

  datatype RawInterface = RawInterface(name: string, networkRef: Option<string>, primary: Option<bool>)

  datatype RawNetworks = RawNetworks(
    interfaces: Option<seq<RawInterface>>, networkRef: Option<string>, nodeNetworkRef: Option<string>)

  // The rule on SwiftGuestBackend.
  predicate CelExclusive(raw: RawNetworks) {
    || raw.interfaces.None?
    || |raw.interfaces.value| == 0
    || (&& (raw.networkRef.None? || |raw.networkRef.value| == 0)
        && (raw.nodeNetworkRef.None? || |raw.nodeNetworkRef.value| == 0))
  }

  predicate CelPrimary(i: RawInterface) {
    i.primary.Some? && i.primary.value
  }

  // The macro exists_one.
  predicate ExistsOne<T>(xs: seq<T>, p: T -> bool) {
    exists i | 0 <= i < |xs| :: p(xs[i]) && forall j | 0 <= j < |xs| && p(xs[j]) :: j == i
  }

  // The rule on the interface list.
  predicate CelOnePrimary(raw: RawNetworks) {
    raw.interfaces.None? || |raw.interfaces.value| == 0 || ExistsOne(raw.interfaces.value, CelPrimary)
  }

  // The rule on each interface.
  predicate CelItem(i: RawInterface) {
    CelPrimary(i) || (i.networkRef.Some? && |i.networkRef.value| > 0)
  }

  predicate CelAccepts(raw: RawNetworks) {
    && CelExclusive(raw)
    && CelOnePrimary(raw)
    && (raw.interfaces.Some? ==> forall i | i in raw.interfaces.value :: CelItem(i))
  }

  // ---- Decoding: an absent field reads as its zero value. ----

  function DecodeInterface(i: RawInterface): Interface {
    Interface(i.name,
              if i.networkRef.Some? then i.networkRef.value else "",
              i.primary.Some? && i.primary.value)
  }

  function DecodeInterfaces(raw: Option<seq<RawInterface>>): (r: seq<Interface>)
    ensures |r| == if raw.Some? then |raw.value| else 0
    ensures forall i | 0 <= i < |r| :: r[i] == DecodeInterface(raw.value[i])
  {
    if raw.Some? then seq(|raw.value|, i requires 0 <= i < |raw.value| => DecodeInterface(raw.value[i])) else []
  }

  predicate Decodes(raw: RawNetworks, cfg: Config) {
    && cfg.interfaces == DecodeInterfaces(raw.interfaces)
    && cfg.networkRef == (if raw.networkRef.Some? then raw.networkRef.value else "")
    && cfg.nodeNetworkRef == (if raw.nodeNetworkRef.Some? then raw.nodeNetworkRef.value else "")
  }

  // ---- What the backend accepts. ----

  // How many elements satisfy p.
  function Count<T>(xs: seq<T>, p: T -> bool): nat {
    if xs == [] then 0 else Count(xs[..|xs| - 1], p) + if p(xs[|xs| - 1]) then 1 else 0
  }

  predicate IsPrimary(i: Interface) {
    i.primary
  }

  predicate InterfacesOK(cfg: Config) {
    || cfg.interfaces == []
    || (&& cfg.networkRef == "" && cfg.nodeNetworkRef == ""
        && (forall i | 0 <= i < |cfg.interfaces| :: cfg.interfaces[i].primary || cfg.interfaces[i].networkRef != "")
        && Count(cfg.interfaces, IsPrimary) == 1)
  }

  function GpuRefs(g: Gpu): seq<string> {
    [g.claimTemplate, g.claim, g.profile]
  }

  predicate NonEmpty(s: string) {
    s != ""
  }

  predicate GpuOK(gpu: Option<Gpu>) {
    gpu.None? ||
    (var g := gpu.value;
     && ExistsOne(GpuRefs(g), NonEmpty)
     && g.tier in {"", TierPCIe})
  }

  predicate PlacementOK(cfg: Config) {
    cfg.nodeName == "" || cfg.gpu.None?
  }

  predicate PrimaryOnNAD(cfg: Config) {
    cfg.networkRef != "" || FirstPrimaryOnNAD(cfg.interfaces)
  }

  predicate FirstPrimaryOnNAD(ifaces: seq<Interface>) {
    ifaces != [] &&
    if ifaces[0].primary then ifaces[0].networkRef != "" else FirstPrimaryOnNAD(ifaces[1..])
  }

  // Everything the backend checks before it talks to the API server.
  predicate ConfigOK(cfg: Option<Config>, exposed: bool) {
    cfg.Some? &&
    var c := cfg.value;
    && c.imageRef != "" && c.guestClassRef != ""
    && GpuOK(c.gpu) && PlacementOK(c) && InterfacesOK(c)
    && !(exposed && PrimaryOnNAD(c))
  }

  method ValidateGPU(gpu: Option<Gpu>) returns (ok: bool)
    ensures ok <==> GpuOK(gpu)
  {
    if gpu.None? {
      return true;
    }
    var g := gpu.value;
    var refs := GpuRefs(g);
    var count := 0;
    for i := 0 to |refs|
      invariant count == Count(refs[..i], NonEmpty)
    {
      assert refs[..i + 1][..i] == refs[..i];
      if refs[i] != "" {
        count := count + 1;
      }
    }
    assert refs[..|refs|] == refs;
    CountOne(refs, NonEmpty);
    if count != 1 {
      return false;
    }
    return !(g.tier != "" && g.tier != TierPCIe);
  }

  method ValidateInterfaces(cfg: Config) returns (ok: bool)
    ensures ok <==> InterfacesOK(cfg)
  {
    if |cfg.interfaces| == 0 {
      return true;
    }
    if cfg.networkRef != "" || cfg.nodeNetworkRef != "" {
      return false;
    }
    var primaries := 0;
    for i := 0 to |cfg.interfaces|
      invariant primaries == Count(cfg.interfaces[..i], IsPrimary)
      invariant forall j | 0 <= j < i :: cfg.interfaces[j].primary || cfg.interfaces[j].networkRef != ""
    {
      assert cfg.interfaces[..i + 1][..i] == cfg.interfaces[..i];
      if cfg.interfaces[i].primary {
        primaries := primaries + 1;
        continue;
      }
      if cfg.interfaces[i].networkRef == "" {
        return false;
      }
    }
    assert cfg.interfaces[..|cfg.interfaces|] == cfg.interfaces;
    return primaries == 1;
  }

  method IsPrimaryOnNAD(cfg: Config) returns (r: bool)
    ensures r == PrimaryOnNAD(cfg)
  {
    if cfg.networkRef != "" {
      return true;
    }
    for i := 0 to |cfg.interfaces|
      invariant FirstPrimaryOnNAD(cfg.interfaces) == FirstPrimaryOnNAD(cfg.interfaces[i..])
    {
      if cfg.interfaces[i].primary {
        return cfg.interfaces[i].networkRef != "";
      }
      assert cfg.interfaces[i..][1..] == cfg.interfaces[i + 1..];
    }
    return false;
  }

  // ---- The two sets of rules agree. ----

  lemma {:induction false} CountAtLeast<T>(xs: seq<T>, p: T -> bool, i: nat)
    requires i < |xs| && p(xs[i])
    ensures Count(xs, p) >= 1
    ensures Count(xs, p) == 1 ==> forall j | 0 <= j < |xs| && p(xs[j]) :: j == i
  {
    var n := |xs| - 1;
    var front := xs[..n];
    if i < n {
      CountAtLeast(front, p, i);
      assert forall j | 0 <= j < n :: front[j] == xs[j];
    } else {
      forall j | 0 <= j < n && p(xs[j])
        ensures Count(xs, p) > 1
      {
        assert front[j] == xs[j];
        CountAtLeast(front, p, j);
      }
    }
  }

  lemma {:induction false} CountWitness<T>(xs: seq<T>, p: T -> bool) returns (i: nat)
    requires Count(xs, p) >= 1
    ensures i < |xs| && p(xs[i])
  {
    var n := |xs| - 1;
    if p(xs[n]) {
      i := n;
    } else {
      i := CountWitness(xs[..n], p);
    }
  }

  lemma {:induction false} CountAtMostOne<T>(xs: seq<T>, p: T -> bool, i: nat)
    requires i < |xs|
    requires forall j | 0 <= j < |xs| && p(xs[j]) :: j == i
    ensures Count(xs, p) <= 1
  {
    var n := |xs| - 1;
    var front := xs[..n];
    assert forall j | 0 <= j < n :: front[j] == xs[j];
    if i < n {
      CountAtMostOne(front, p, i);
    } else if Count(front, p) >= 1 {
      var j := CountWitness(front, p);
      assert false;
    }
  }

  lemma CountOne<T>(xs: seq<T>, p: T -> bool)
    ensures Count(xs, p) == 1 <==> ExistsOne(xs, p)
  {
    if Count(xs, p) == 1 {
      var i := CountWitness(xs, p);
      CountAtLeast(xs, p, i);
    }
    if ExistsOne(xs, p) {
      var i :| 0 <= i < |xs| && p(xs[i]) && forall j | 0 <= j < |xs| && p(xs[j]) :: j == i;
      CountAtLeast(xs, p, i);
      CountAtMostOne(xs, p, i);
    }
  }

  lemma ExistsOneTransfers<S, T>(xs: seq<S>, p: S -> bool, ys: seq<T>, q: T -> bool)
    requires |xs| == |ys|
    requires forall i | 0 <= i < |xs| :: p(xs[i]) == q(ys[i])
    requires ExistsOne(xs, p)
    ensures ExistsOne(ys, q)
  {
    var i :| 0 <= i < |xs| && p(xs[i]) && forall j | 0 <= j < |xs| && p(xs[j]) :: j == i;
    assert q(ys[i]) && forall j | 0 <= j < |ys| && q(ys[j]) :: j == i;
  }

  // The backend's check accepts a decoded object exactly when the CRD's rules admit it.
  lemma ValidatorMatchesCel(raw: RawNetworks, cfg: Config)
    requires Decodes(raw, cfg)
    ensures InterfacesOK(cfg) <==> CelAccepts(raw)
  {
    if raw.interfaces.Some? && raw.interfaces.value != [] {
      OnePrimaryMatchesCel(raw.interfaces.value, cfg.interfaces);
      ItemsMatchCel(raw.interfaces.value, cfg.interfaces);
    }
  }

  lemma OnePrimaryMatchesCel(rs: seq<RawInterface>, ds: seq<Interface>)
    requires |rs| == |ds| && forall i | 0 <= i < |rs| :: ds[i] == DecodeInterface(rs[i])
    ensures Count(ds, IsPrimary) == 1 <==> ExistsOne(rs, CelPrimary)
  {
    CountOne(ds, IsPrimary);
    if ExistsOne(rs, CelPrimary) {
      ExistsOneTransfers(rs, CelPrimary, ds, IsPrimary);
    }
    if ExistsOne(ds, IsPrimary) {
      ExistsOneTransfers(ds, IsPrimary, rs, CelPrimary);
    }
  }

  lemma ItemsMatchCel(rs: seq<RawInterface>, ds: seq<Interface>)
    requires |rs| == |ds| && forall i | 0 <= i < |rs| :: ds[i] == DecodeInterface(rs[i])
    ensures (forall i | 0 <= i < |ds| :: ds[i].primary || ds[i].networkRef != "") <==> (forall r | r in rs :: CelItem(r))
  {
    assert forall i | 0 <= i < |rs| :: (ds[i].primary || ds[i].networkRef != "") == CelItem(rs[i]);
    if forall r | r in rs :: CelItem(r) {
      assert forall i | 0 <= i < |rs| :: rs[i] in rs;
    }
  }
}
