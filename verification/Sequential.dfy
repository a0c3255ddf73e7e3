/** What one reconcile amounts to when every call succeeds and nobody else acts: a plain
    function of the store. The coroutine computes it, and doing it twice changes nothing. */
module Sequential {
  import opened Prelude
  import opened Names
  import opened GuestConfig
  import opened MachineObject
  import opened ApiServer
  import opened Controller
  import opened Protocol
  import GuestSpec
  import Seeds
  import GuestStatus

  datatype Ended = Ended(store: Store, verdict: Verdict, last: Option<Guest>)

  // ---- The plain function. ----

  datatype Gate = Stop(mem: Owned, verdict: Verdict) | Go(x: Option<GuestSpec.Exposure>)

  // What holds a reconcile back before it touches the guest.
  function GateOf(env: Environment, k: Key, c: Context): Gate {
    if !c.cluster.infraReady then Stop(NotReady(c.mem, WaitingForClusterInfrastructure, ""), Forget)
    else if c.owner.dataSecret.None? then Stop(NotReady(c.mem, WaitingForBootstrapData, ""), Forget)
    else
      var secret := Lookup(env.secrets, Key(k.ns, c.owner.dataSecret.value));
      if secret.None? || !secret.value.hasValue then Stop(c.mem, Retry)
      else if c.owner.controlPlane && c.cluster.infraRef != "" then
        var infra := Lookup(env.infras, Key(k.ns, c.cluster.infraRef));
        if infra.None? then Stop(c.mem, Retry) else ConfigGate(c, ExposureOf(c.before.clusterLabel, infra.value))
      else ConfigGate(c, None)
  }

  function ConfigGate(c: Context, x: Option<GuestSpec.Exposure>): (g: Gate)
    ensures g.Go? ==> ConfigOK(c.before.config, g.x.Some?)
  {
    if ConfigOK(c.before.config, x.Some?) then Go(x) else Stop(Broken(c.mem), Retry)
  }

  function EnsureSeed(seeds: map<Key, Seed>, k: Key, secret: string): map<Key, Seed> {
    if SeedKey(k) !in seeds then seeds[SeedKey(k) := DesiredSeed(k, secret)]
    else if SeedCurrent(seeds[SeedKey(k)], secret) then seeds
    else seeds[SeedKey(k) := Migrated(seeds[SeedKey(k)], secret)]
  }

  function EnsureGuest(guests: map<Key, Guest>, k: Key, rendered: GuestSpec.Rendered): (r: map<Key, Guest>)
    ensures k in r
  {
    if k in guests then guests else guests[k := Guest(rendered, false, GuestStatus.Blank)]
  }

  function EnsureNode(s: Store, k: Key, c: Context): (map<NodeKey, string>, Verdict) {
    var secret, n := Lookup(s.env.secrets, Key(k.ns, c.before.clusterLabel + "-kubeconfig")), NodeOf(k, c);
    if secret.None? then (s.nodes, Later)
    else if !secret.value.hasValue || !secret.value.parses then (s.nodes, Retry)
    else if n !in s.nodes then (s.nodes, Later)
    else if s.nodes[n] == "" then (s.nodes[n := ProviderID(k)], Forget)
    else (s.nodes, Forget)
  }

  function Saved(s: Store, k: Key, c: Context): map<Key, Machine> {
    PutMachine(s.machines, k, c.before.(owned := c.mem))
  }

  // From a guest in hand to the end.
  function Judged(s: Store, k: Key, c: Context, g: Guest): Ended {
    var machines := Saved(s, k, c.(mem := Mirror(k, c, g)));
    match GuestStatus.Observe(g.status)
    case Broken => Ended(s.(machines := machines), Retry, Some(g))
    case Waiting(_, _) => Ended(s.(machines := machines), Later, Some(g))
    case Up(_) =>
      var (nodes, verdict) := EnsureNode(s, k, c);
      Ended(s.(machines := machines, nodes := nodes), verdict, Some(g))
  }

  function Normal(s: Store, k: Key, c: Context): Ended {
    match GateOf(s.env, k, c)
    case Stop(mem, verdict) => Ended(s.(machines := Saved(s, k, c.(mem := mem))), verdict, None)
    case Go(x) =>
      assert ConfigOK(c.before.config, x.Some?);
      var seeds := EnsureSeed(s.seeds, k, SecretName(c));
      var guests := EnsureGuest(s.guests, k, RenderFor(k, c, x));
      Judged(s.(seeds := seeds, guests := guests), k, c, guests[k])
  }

  function Deleted(s: Store, k: Key, m: Machine): Ended {
    if k !in s.guests then
      var m' := m.(owned := m.owned.(finalizer := false));
      Ended(s.(seeds := s.seeds - {SeedKey(k)}, machines := PutMachine(s.machines, k, m')), Forget, None)
    else if s.guests[k].terminating then Ended(s.(machines := PutMachine(s.machines, k, m)), Later, None)
    else
      Ended(s.(guests := s.guests[k := s.guests[k].(terminating := true)], machines := PutMachine(s.machines, k, m)),
            Later, None)
  }

  datatype Admission = Turned(verdict: Verdict) | Admitted(c: Context)

  // Owner, cluster, pause and backend, in that order.
  function Admit(env: Environment, k: Key, m: Machine): Admission {
    if m.owner.None? then Turned(Forget)
    else
      var owner := Lookup(env.owners, Key(k.ns, m.owner.value));
      if owner.None? then Turned(Retry)
      else if m.clusterLabel == "" then Turned(Forget)
      else
        var cluster := Lookup(env.clusters, Key(k.ns, m.clusterLabel));
        if cluster.None? || cluster.value.paused || m.paused then Turned(Forget)
        else if m.backendType != SwiftGuestBackend then Turned(Retry)
        else Admitted(Context(m, if m.deleting then m.owned else m.owned.(finalizer := true), owner.value, cluster.value))
  }

  function Reconciled(s: Store, k: Key): Ended {
    if k !in s.machines then Ended(s, Forget, None)
    else
      var m := s.machines[k];
      match Admit(s.env, k, m)
      case Turned(verdict) => Ended(s, verdict, None)
      case Admitted(c) => if m.deleting then Deleted(s, k, m) else Normal(s, k, c)
  }

  // ---- The coroutine, driven to its end. ----

  function Drive(s: Store, k: Key, x: Job): Ended
    decreases CallsLeft(x)
  {
    var (s', reply) := Exec(s, NextCall(k, x));
    match Resume(k, x, reply)
    case Continue(y) => CallsRunOut(k, x, reply); Drive(s', k, y)
    case Finish(verdict, last) => Ended(s', verdict, last)
  }

  lemma Step(s: Store, k: Key, x: Job, s': Store, reply: Reply, y: Job)
    requires Exec(s, NextCall(k, x)) == (s', reply) && Resume(k, x, reply) == Continue(y)
    ensures Drive(s, k, x) == Drive(s', k, y)
  {
  }

  lemma DrivePersist(s: Store, k: Key, c: Context, last: Option<Guest>, v: Verdict)
    requires k in s.machines && s.machines[k] == c.before
    requires c.before.deleting ==> !(c.mem.finalizer && !c.before.owned.finalizer)
    ensures Drive(s, k, Persist(c, last, v))
         == Ended(s.(machines := Saved(s, k, c)), v, last)
  {
  }

  lemma DriveNode(s: Store, k: Key, c: Context, g: Guest)
    requires k in s.machines && s.machines[k] == c.before && !c.before.deleting
    ensures var (nodes, verdict) := EnsureNode(s, k, c);
            Drive(s, k, ReadKubeconfig(c, g))
            == Ended(s.(nodes := nodes, machines := Saved(s, k, c)), verdict, Some(g))
  {
    var kubeconfig := Lookup(s.env.secrets, Key(k.ns, c.before.clusterLabel + "-kubeconfig"));
    if kubeconfig.Some? && kubeconfig.value.hasValue && kubeconfig.value.parses {
      DriveNodeRead(s, k, c, g);
      assert Drive(s, k, ReadKubeconfig(c, g)) == Drive(s, k, ReadNode(c, g));
    } else {
      var v := if kubeconfig.None? then Later else Retry;
      DrivePersist(s, k, c, Some(g), v);
      assert Drive(s, k, ReadKubeconfig(c, g)) == Drive(s, k, Persist(c, Some(g), v));
    }
  }

  lemma DriveNodeRead(s: Store, k: Key, c: Context, g: Guest)
    requires k in s.machines && s.machines[k] == c.before && !c.before.deleting
    ensures var n := NodeOf(k, c);
            var nodes := if n in s.nodes && s.nodes[n] == "" then s.nodes[n := ProviderID(k)] else s.nodes;
            Drive(s, k, ReadNode(c, g))
            == Ended(s.(nodes := nodes, machines := Saved(s, k, c)),
                     if n in s.nodes then Forget else Later, Some(g))
  {
    hide Drive, Begin, Validate, Judge, Fail, ProviderID;
    var n := NodeOf(k, c);
    if n !in s.nodes {
      Step(s, k, ReadNode(c, g), s, NotFound, Persist(c, Some(g), Later));
      DrivePersist(s, k, c, Some(g), Later);
    } else if s.nodes[n] != "" {
      Step(s, k, ReadNode(c, g), s, NodeIs(s.nodes[n]), Persist(c, Some(g), Forget));
      DrivePersist(s, k, c, Some(g), Forget);
    } else {
      var s' := s.(nodes := s.nodes[n := ProviderID(k)]);
      Step(s, k, ReadNode(c, g), s, NodeIs(""), WriteNode(c, g));
      Step(s, k, WriteNode(c, g), s', Done, Persist(c, Some(g), Forget));
      DrivePersist(s', k, c, Some(g), Forget);
    }
  }

  lemma DriveJudge(s: Store, k: Key, c: Context, g: Guest)
    requires k in s.machines && s.machines[k] == c.before && !c.before.deleting
    ensures Drive(s, k, Judge(k, c, g).job) == Judged(s, k, c, g)
  {
    var c' := c.(mem := Mirror(k, c, g));
    match GuestStatus.Observe(g.status)
    case Broken => DrivePersist(s, k, c', Some(g), Retry);
    case Waiting(_, _) => DrivePersist(s, k, c', Some(g), Later);
    case Up(_) => DriveNode(s, k, c', g);
  }

  lemma DriveFoundGuest(s: Store, k: Key, c: Context, x: Option<GuestSpec.Exposure>)
    requires k in s.machines && s.machines[k] == c.before && !c.before.deleting
    requires ConfigOK(c.before.config, x.Some?) && k in s.guests
    ensures Drive(s, k, ReadGuest(c, x)) == Judged(s, k, c, s.guests[k])
  {
    hide Drive, Judged;
    Step(s, k, ReadGuest(c, x), s, GuestIs(s.guests[k]), Judge(k, c, s.guests[k]).job);
    DriveJudge(s, k, c, s.guests[k]);
  }

  lemma DriveNewGuest(s: Store, k: Key, c: Context, x: Option<GuestSpec.Exposure>)
    requires k in s.machines && s.machines[k] == c.before && !c.before.deleting
    requires ConfigOK(c.before.config, x.Some?) && k !in s.guests
    ensures var g := Guest(RenderFor(k, c, x), false, GuestStatus.Blank);
            Drive(s, k, ReadGuest(c, x)) == Judged(s.(guests := s.guests[k := g]), k, c, g)
  {
    hide Drive, Judged, RenderFor, Begin, Validate, Fail, Mirror;
    var g := Guest(RenderFor(k, c, x), false, GuestStatus.Blank);
    var s' := s.(guests := s.guests[k := g]);
    Step(s, k, ReadGuest(c, x), s, NotFound, MakeGuest(c, x));
    Step(s, k, MakeGuest(c, x), s', GuestIs(g), Judge(k, c, g).job);
    DriveJudge(s', k, c, g);
  }

  lemma DriveGuest(s: Store, k: Key, c: Context, x: Option<GuestSpec.Exposure>)
    requires k in s.machines && s.machines[k] == c.before && !c.before.deleting
    requires ConfigOK(c.before.config, x.Some?)
    ensures var guests := EnsureGuest(s.guests, k, RenderFor(k, c, x));
            Drive(s, k, ReadGuest(c, x)) == Judged(s.(guests := guests), k, c, guests[k])
  {
    if k in s.guests {
      DriveFoundGuest(s, k, c, x);
      assert s.(guests := s.guests) == s;
    } else {
      DriveNewGuest(s, k, c, x);
    }
    hide Drive, Judged;
  }

  lemma DriveSeed(s: Store, k: Key, c: Context, x: Option<GuestSpec.Exposure>)
    requires ConfigOK(c.before.config, x.Some?)
    ensures Drive(s, k, ReadSeed(c, x))
         == Drive(s.(seeds := EnsureSeed(s.seeds, k, SecretName(c))), k, ReadGuest(c, x))
  {
    hide Drive;
    var s' := s.(seeds := EnsureSeed(s.seeds, k, SecretName(c)));
    if SeedKey(k) !in s.seeds {
      Step(s, k, ReadSeed(c, x), s, NotFound, MakeSeed(c, x));
      Step(s, k, MakeSeed(c, x), s', Done, ReadGuest(c, x));
    } else if !SeedCurrent(s.seeds[SeedKey(k)], SecretName(c)) {
      var found := s.seeds[SeedKey(k)];
      Step(s, k, ReadSeed(c, x), s, SeedIs(found), MoveSeed(c, x, found));
      Step(s, k, MoveSeed(c, x, found), s', Done, ReadGuest(c, x));
    } else {
      Step(s, k, ReadSeed(c, x), s, SeedIs(s.seeds[SeedKey(k)]), ReadGuest(c, x));
      assert s' == s;
    }
  }

  lemma DriveValidate(s: Store, k: Key, c: Context, x: Option<GuestSpec.Exposure>)
    requires k in s.machines && s.machines[k] == c.before && !c.before.deleting
    requires GateOf(s.env, k, c) == ConfigGate(c, x)
    ensures Drive(s, k, Validate(c, x).job) == Normal(s, k, c)
  {
    if ConfigOK(c.before.config, x.Some?) {
      hide Drive, Judged, EnsureSeed, EnsureGuest;
      DriveSeed(s, k, c, x);
      DriveGuest(s.(seeds := EnsureSeed(s.seeds, k, SecretName(c))), k, c, x);
    } else {
      hide Drive, ConfigOK;
      DrivePersist(s, k, c.(mem := Broken(c.mem)), None, Retry);
    }
  }

  lemma DriveInfra(s: Store, k: Key, c: Context)
    requires k in s.machines && s.machines[k] == c.before && !c.before.deleting
    requires c.cluster.infraReady && c.owner.dataSecret.Some?
    requires c.owner.controlPlane && c.cluster.infraRef != ""
    requires var secret := Lookup(s.env.secrets, Key(k.ns, c.owner.dataSecret.value)); secret.Some? && secret.value.hasValue
    ensures Drive(s, k, ReadInfra(c)) == Normal(s, k, c)
  {
    var infra := Lookup(s.env.infras, Key(k.ns, c.cluster.infraRef));
    if infra.Some? {
      var x := ExposureOf(c.before.clusterLabel, infra.value);
      DriveValidate(s, k, c, x);
      assert Drive(s, k, ReadInfra(c)) == Drive(s, k, Validate(c, x).job);
    } else {
      DrivePersist(s, k, c, None, Retry);
      assert Drive(s, k, ReadInfra(c)) == Drive(s, k, Persist(c, None, Retry));
    }
  }

  lemma DriveBootstrap(s: Store, k: Key, c: Context)
    requires k in s.machines && s.machines[k] == c.before && !c.before.deleting
    requires c.cluster.infraReady && c.owner.dataSecret.Some?
    ensures Drive(s, k, ReadBootstrap(c)) == Normal(s, k, c)
  {
    var secret := Lookup(s.env.secrets, Key(k.ns, c.owner.dataSecret.value));
    if secret.None? || !secret.value.hasValue {
      DrivePersist(s, k, c, None, Retry);
      assert Drive(s, k, ReadBootstrap(c)) == Drive(s, k, Persist(c, None, Retry));
    } else if c.owner.controlPlane && c.cluster.infraRef != "" {
      DriveInfra(s, k, c);
      assert Drive(s, k, ReadBootstrap(c)) == Drive(s, k, ReadInfra(c));
    } else {
      DriveValidate(s, k, c, None);
      assert Drive(s, k, ReadBootstrap(c)) == Drive(s, k, Validate(c, None).job);
    }
  }

  lemma DriveSeedRemoval(s: Store, k: Key, c: Context)
    requires k in s.machines && s.machines[k] == c.before && c.before.deleting && c.mem == c.before.owned
    ensures var s', c' := s.(seeds := s.seeds - {SeedKey(k)}), c.(mem := c.mem.(finalizer := false));
            Drive(s, k, KillSeed(c)) == Ended(s'.(machines := Saved(s', k, c')), Forget, None)
  {
    hide Drive;
    var s', c' := s.(seeds := s.seeds - {SeedKey(k)}), c.(mem := c.mem.(finalizer := false));
    assert Exec(s, DeleteSeed(SeedKey(k))).0 == s';
    Step(s, k, KillSeed(c), s', Exec(s, DeleteSeed(SeedKey(k))).1, Persist(c', None, Forget));
    DrivePersist(s', k, c', None, Forget);
  }

  lemma DriveGuestRemoval(s: Store, k: Key, c: Context)
    requires k in s.machines && s.machines[k] == c.before && c.before.deleting && c.mem == c.before.owned
    requires k in s.guests
    ensures var s' := s.(guests := s.guests[k := s.guests[k].(terminating := true)]);
            Drive(s, k, KillGuest(c)) == Ended(s'.(machines := Saved(s', k, c)), Later, None)
  {
    hide Drive;
    var s' := s.(guests := s.guests[k := s.guests[k].(terminating := true)]);
    Step(s, k, KillGuest(c), s', Done, Persist(c, None, Later));
    DrivePersist(s', k, c, None, Later);
  }

  lemma DriveDoomed(s: Store, k: Key, c: Context)
    requires k in s.machines && s.machines[k] == c.before && c.before.deleting && c.mem == c.before.owned
    ensures Drive(s, k, ReadDoomed(c)) == Deleted(s, k, c.before)
  {
    hide Drive;
    if k !in s.guests {
      Step(s, k, ReadDoomed(c), s, NotFound, KillSeed(c));
      DriveSeedRemoval(s, k, c);
    } else if s.guests[k].terminating {
      Step(s, k, ReadDoomed(c), s, GuestIs(s.guests[k]), Persist(c, None, Later));
      DrivePersist(s, k, c, None, Later);
    } else {
      Step(s, k, ReadDoomed(c), s, GuestIs(s.guests[k]), KillGuest(c));
      DriveGuestRemoval(s, k, c);
    }
  }

  lemma DriveBegin(s: Store, k: Key, m: Machine, o: CapiMachine, cl: Cluster)
    requires k in s.machines && s.machines[k] == m
    ensures var c := Context(m, if m.deleting then m.owned else m.owned.(finalizer := true), o, cl);
            Drive(s, k, Begin(Context(m, m.owned, o, cl)).job) == if m.deleting then Deleted(s, k, m) else Normal(s, k, c)
  {
    if m.deleting {
      DriveDoomed(s, k, Context(m, m.owned, o, cl));
    } else {
      var c := Context(m, m.owned.(finalizer := true), o, cl);
      if !cl.infraReady {
        DrivePersist(s, k, c.(mem := NotReady(c.mem, WaitingForClusterInfrastructure, "")), None, Forget);
      } else if o.dataSecret.None? {
        DrivePersist(s, k, c.(mem := NotReady(c.mem, WaitingForBootstrapData, "")), None, Forget);
      } else {
        DriveBootstrap(s, k, c);
      }
    }
  }

  // The coroutine computes the plain function.
  lemma DriveIsReconciled(s: Store, k: Key)
    ensures Drive(s, k, ReadMachine) == Reconciled(s, k)
  {
    if k in s.machines && s.machines[k].owner.Some? {
      var m := s.machines[k];
      var owner := Lookup(s.env.owners, Key(k.ns, m.owner.value));
      assert Drive(s, k, ReadMachine) == Drive(s, k, ReadOwner(m));
      if owner.Some? && m.clusterLabel != "" {
        assert Drive(s, k, ReadOwner(m)) == Drive(s, k, ReadCluster(m, owner.value));
        var cluster := Lookup(s.env.clusters, Key(k.ns, m.clusterLabel));
        if cluster.Some? && !cluster.value.paused && !m.paused && m.backendType == SwiftGuestBackend {
          DriveBegin(s, k, m, owner.value, cluster.value);
          var b := Begin(Context(m, m.owned, owner.value, cluster.value));
          assert Drive(s, k, ReadCluster(m, owner.value)) == Drive(s, k, b.job);
        }
      }
    }
  }

  // ---- Twice is once. ----

  lemma EnsureSeedTwice(seeds: map<Key, Seed>, k: Key, secret: string)
    ensures var once := EnsureSeed(seeds, k, secret);
            && EnsureSeed(once, k, secret) == once
            && SeedKey(k) in once && SeedCurrent(once[SeedKey(k)], secret) && Seeds.PointsTo(once[SeedKey(k)], secret)
            && (if SeedKey(k) !in seeds then KubeKey(k) ==> Seeds.Introduces(once[SeedKey(k)], k)
                else
                  && once[SeedKey(k)].other == seeds[SeedKey(k)].other
                  && if Seeds.PointsTo(seeds[SeedKey(k)], secret) then once == seeds else once[SeedKey(k)].userData == None)
            && (forall j :: j != SeedKey(k) ==> Lookup(once, j) == Lookup(seeds, j))
  {
    hide Seeds.Introduces, Seeds.PointsTo, SeedCurrent, Migrated, DesiredSeed;
    if KubeKey(k) {
      Seeds.NewSeedMeans(k, secret);
    }
    Seeds.MigrationMeans(DesiredSeed(k, secret), secret);
    NewSeedIsCurrent(k, secret);
    if SeedKey(k) in seeds {
      Seeds.MigrationMeans(seeds[SeedKey(k)], secret);
      Seeds.MigrationMeans(Migrated(seeds[SeedKey(k)], secret), secret);
    }
  }

  lemma NewSeedIsCurrent(k: Key, secret: string)
    ensures SeedCurrent(DesiredSeed(k, secret), secret)
  {
  }

  // The gates do not depend on what the controller wrote.
  lemma GateTwice(env: Environment, k: Key, c: Context, c': Context)
    requires c'.owner == c.owner && c'.cluster == c.cluster
    requires c'.before.config == c.before.config && c'.before.clusterLabel == c.before.clusterLabel
    ensures match GateOf(env, k, c)
            case Stop(mem, verdict) => c'.mem == mem ==> GateOf(env, k, c') == Stop(mem, verdict)
            case Go(x) => GateOf(env, k, c') == Go(x)
  {
  }

  // The context of the next reconcile.
  function Again(s: Store, k: Key, c: Context): Context
    requires k in s.machines
  {
    c.(before := s.machines[k], mem := s.machines[k].owned.(finalizer := true))
  }

  lemma EnsureNodeTwice(s: Store, t: Store, k: Key, c: Context, d: Context)
    requires t.env == s.env && t.nodes == EnsureNode(s, k, c).0 && d.before.clusterLabel == c.before.clusterLabel
    ensures EnsureNode(t, k, d) == EnsureNode(s, k, c)
  {
  }

  lemma JudgedTwice(s: Store, k: Key, c: Context, g: Guest)
    requires k in s.machines && s.machines[k] == c.before && !c.before.deleting && c.mem.finalizer
    ensures var e := Judged(s, k, c, g);
            && k in e.store.machines
            && e.store.machines[k] == c.before.(owned := Mirror(k, c, g))
            && e.store == s.(machines := e.store.machines, nodes := e.store.nodes)
            && e.last == Some(g)
            && Judged(e.store, k, Again(e.store, k, c), g) == e
  {
    hide GuestStatus.Observe, ProviderID, EnsureNode;
    var e := Judged(s, k, c, g);
    if GuestStatus.Observe(g.status).Up? {
      EnsureNodeTwice(s, e.store, k, c, Again(e.store, k, c));
    }
    assert Mirror(k, Again(e.store, k, c), g) == Mirror(k, c, g);
  }

  lemma NormalTwice(s: Store, k: Key, c: Context)
    requires k in s.machines && s.machines[k] == c.before && !c.before.deleting
    requires c.mem == c.before.owned.(finalizer := true)
    ensures var e := Normal(s, k, c);
            && k in e.store.machines
            && e.store.machines[k] == c.before.(owned := e.store.machines[k].owned)
            && e.store.env == s.env
            && Normal(e.store, k, Again(e.store, k, c)) == e
  {
    var e := Normal(s, k, c);
    match GateOf(s.env, k, c)
    case Stop(mem, verdict) =>
      GateTwice(s.env, k, c, Again(e.store, k, c));
      hide GateOf, ConfigOK;
    case Go(x) =>
      var seeds := EnsureSeed(s.seeds, k, SecretName(c));
      var guests := EnsureGuest(s.guests, k, RenderFor(k, c, x));
      EnsureSeedTwice(s.seeds, k, SecretName(c));
      JudgedTwice(s.(seeds := seeds, guests := guests), k, c, guests[k]);
      GateTwice(s.env, k, c, Again(e.store, k, c));
      hide GateOf, EnsureSeed, Judged, ConfigOK;
  }

  // A second reconcile of a live machine, with nobody else acting, changes nothing.
  lemma ReconcileTwice(s: Store, k: Key)
    requires k in s.machines && !s.machines[k].deleting
    ensures Reconciled(Reconciled(s, k).store, k) == Reconciled(s, k)
  {
    match Admit(s.env, k, s.machines[k])
    case Turned(_) =>
    case Admitted(c) =>
      NormalTwice(s, k, c);
  }

  // ---- As runs of the whole system. ----

  // Enough calls of the worker on k, none of them failing, to end any reconcile.
  function Alone(k: Key, n: nat): seq<Event> {
    if n == 0 then [] else [Work(k, NoFault)] + Alone(k, n - 1)
  }

  function Round(k: Key): seq<Event> {
    [Start(k)] + Alone(k, 13)
  }

  lemma RunCons(w: World, e: Event, es: seq<Event>)
    ensures Run(w, [e] + es) == Run(Apply(w, e), es)
  {
    RunConcat(w, [e], es);
    assert Run(w, [e]) == Apply(w, e) by {
      assert [e][..0] == [];
    }
  }

  lemma RunNothing(w: World)
    ensures Run(w, []) == w
  {
  }

  lemma {:induction false} IdleAlone(w: World, k: Key, n: nat)
    requires k !in w.workers
    ensures Run(w, Alone(k, n)) == w
  {
    hide Run, Advance;
    if n > 0 {
      RunCons(w, Work(k, NoFault), Alone(k, n - 1));
      IdleAlone(w, k, n - 1);
    } else {
      RunNothing(w);
    }
  }

  // A world after calls of the worker on k: the reconcile is as far as `e` says.
  predicate Drives(w: World, k: Key, e: Ended, v: World) {
    && v.store == e.store && v.workers == w.workers - {k}
    && (k in w.queue || e.verdict != Forget ==> k in v.queue)
  }

  lemma WorkContinues(w: World, k: Key, y: Job)
    requires k in w.workers
    requires var (_, reply) := Exec(w.store, NextCall(k, w.workers[k])); Resume(k, w.workers[k], reply) == Continue(y)
    ensures var v := Apply(w, Work(k, NoFault));
            && k in v.workers && v.workers[k] == y && v.workers - {k} == w.workers - {k}
            && (k in w.queue ==> k in v.queue)
            && Drive(w.store, k, w.workers[k]) == Drive(v.store, k, y)
            && CallsLeft(y) < CallsLeft(w.workers[k])
  {
    var (s', reply) := Exec(w.store, NextCall(k, w.workers[k]));
    CallsRunOut(k, w.workers[k], reply);
    hide Exec, Resume, NextCall, CallsLeft;
  }

  lemma WorkFinishes(w: World, k: Key)
    requires k in w.workers
    requires var (_, reply) := Exec(w.store, NextCall(k, w.workers[k])); Resume(k, w.workers[k], reply).Finish?
    ensures Drives(w, k, Drive(w.store, k, w.workers[k]), Apply(w, Work(k, NoFault)))
  {
    hide Exec, Resume, NextCall, CallsLeft;
  }

  lemma AloneCons(k: Key, n: nat)
    requires n > 0
    ensures Alone(k, n) == [Work(k, NoFault)] + Alone(k, n - 1)
  {
  }

  lemma {:induction false} AloneDrives(w: World, k: Key, n: nat)
    requires k in w.workers && n > CallsLeft(w.workers[k])
    ensures Drives(w, k, Drive(w.store, k, w.workers[k]), Run(w, Alone(k, n)))
    decreases n
  {
    hide Drive, Apply, Run, Exec, Resume, NextCall, CallsLeft, Alone;
    var (_, reply) := Exec(w.store, NextCall(k, w.workers[k]));
    var p := Resume(k, w.workers[k], reply);
    var w' := Apply(w, Work(k, NoFault));
    RunCons(w, Work(k, NoFault), Alone(k, n - 1));
    AloneCons(k, n);
    if p.Continue? {
      WorkContinues(w, k, p.job);
      AloneDrives(w', k, n - 1);
    } else {
      WorkFinishes(w, k);
      IdleAlone(w', k, n - 1);
    }
  }

  lemma RoundReconciles(w: World, k: Key)
    requires k !in w.workers && k in w.queue
    ensures var v := Run(w, Round(k));
            && v.store == Reconciled(w.store, k).store && v.workers == w.workers
            && (Reconciled(w.store, k).verdict != Forget ==> k in v.queue)
  {
    RunCons(w, Start(k), Alone(k, 13));
    AloneDrives(Apply(w, Start(k)), k, 13);
    DriveIsReconciled(w.store, k);
  }

  // The same as a statement about runs.
  lemma SecondRoundWritesNothing(w: World, k: Key)
    requires k !in w.workers && k in w.store.machines && !w.store.machines[k].deleting
    ensures Run(w, Round(k) + Round(k)).store == Run(w, Round(k)).store
  {
    var v := Run(w, Round(k));
    RunConcat(w, Round(k), Round(k));
    if k in w.queue {
      RoundReconciles(w, k);
      ReconcileTwice(w.store, k);
    } else {
      RunCons(w, Start(k), Alone(k, 13));
      IdleAlone(w, k, 13);
    }
    if k in v.queue {
      RoundReconciles(v, k);
    } else {
      RunCons(v, Start(k), Alone(k, 13));
      IdleAlone(v, k, 13);
    }
  }
}
