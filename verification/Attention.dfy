/** What the guest watch is worth: a machine that has settled hears of every change of its guest
    exactly when that guest carries the label naming the machine. */
module Attention {
  import opened Prelude
  import opened Names
  import opened GuestConfig
  import opened MachineObject
  import opened ApiServer
  import opened Controller
  import opened Protocol
  import opened Safety
  import opened Sequential
  import opened Trace
  import opened Contract
  import Example
  import GuestSpec
  import GuestStatus

  // Unless work is pending, a live machine whose guest was read shows what its guest now says.
  predicate ShowsGuest(w: World, k: Key) {
    Quiet(View(w, k)) && k in w.reached && k in w.store.machines && !w.store.machines[k].deleting ==>
      k in w.store.guests && Mirrors(w.store.machines[k].owned, w.store.guests[k].status)
  }

  predicate AllExternal(es: seq<Event>) {
    forall e | e in es :: External(e)
  }

  // At rest: nothing is pending, and the guest read last is the one stored.
  predicate AtRest(w: World, k: Key) {
    && Quiet(View(w, k)) && k in w.store.machines && !w.store.machines[k].deleting
    && k in w.store.guests && k in w.reached && w.reached[k] == w.store.guests[k]
  }

  // ---- With the label. ----

  lemma {:induction false} ExternalKeepsReached(w: World, es: seq<Event>)
    requires AllExternal(es)
    ensures Run(w, es).reached == w.reached
  {
    if es != [] {
      var front, e := es[..|es| - 1], es[|es| - 1];
      assert e in es;
      ExternalKeepsReached(w, front);
    }
  }

  lemma LabelledShows(w: World, k: Key, es: seq<Event>)
    requires Reachable(w) && AtRest(w, k) && Labelled(k, w.store.guests[k]) && AllExternal(es)
    ensures ShowsGuest(Run(w, es), k)
  {
    hide Reachable, Labelled, Mirrors;
    var v := Run(w, es);
    ReachableOnward(w, es);
    ExternalKeepsReached(w, es);
    if Quiet(View(v, k)) && k in v.store.machines && !v.store.machines[k].deleting {
      StatusMirrorsGuest(v, k);
    }
  }

  // ---- Without it. ----

  // Reports on the guest of k, its termination and its end.
  predicate OnGuest(e: Event, k: Key) {
    (e.ReportStatus? || e.TerminateGuest? || e.GuestGone?) && e.k == k
  }

  lemma UnlabelledStep(w: World, e: Event, k: Key)
    requires OnGuest(e, k) && (k in w.store.guests ==> Subject(k, w.store.guests[k]) == None)
    ensures Apply(w, e) == w.(store := w.store.(guests := OutsideGuests(w.store.guests, e)))
    ensures var gs := Apply(w, e).store.guests; k in gs ==> Subject(k, gs[k]) == None
  {
    assert Touched(w.store, Outside(w.store, e)) == {};
  }

  // Whatever becomes of an unlabelled guest, nothing is enqueued and the machine stays as it is.
  lemma {:induction false} UnlabelledGoesUnnoticed(w: World, es: seq<Event>, k: Key)
    requires k in w.store.guests ==> Subject(k, w.store.guests[k]) == None
    requires forall e | e in es :: OnGuest(e, k)
    ensures var v := Run(w, es);
            && v == w.(store := w.store.(guests := v.store.guests))
            && (k in v.store.guests ==> Subject(k, v.store.guests[k]) == None)
  {
    hide Apply, Subject, OutsideGuests;
    if es != [] {
      var front, e := es[..|es| - 1], es[|es| - 1];
      assert e in es && forall d | d in front :: d in es;
      UnlabelledGoesUnnoticed(w, front, k);
      UnlabelledStep(Run(w, front), e, k);
    }
  }

  lemma GoneUnnoticed(w: World, k: Key) returns (es: seq<Event>)
    requires AtRest(w, k) && Subject(k, w.store.guests[k]) == None
    ensures es == [TerminateGuest(k), GuestGone(k)]
    ensures !ShowsGuest(Run(w, es), k) && k !in Run(w, es).store.guests
  {
    es := [TerminateGuest(k), GuestGone(k)];
    UnlabelledGoesUnnoticed(w, es, k);
    RunCons(w, TerminateGuest(k), [GuestGone(k)]);
    RunCons(Apply(w, TerminateGuest(k)), GuestGone(k), []);
    GuestEnds(w, k);
    hide Apply, Mirrors, Subject, Run;
    assert [GuestGone(k)] + [] == [GuestGone(k)] && [TerminateGuest(k)] + [GuestGone(k)] == es;
    RunNothing(Apply(Apply(w, TerminateGuest(k)), GuestGone(k)));
  }

  lemma GuestEnds(w: World, k: Key)
    requires k in w.store.guests
    ensures k !in Apply(Apply(w, TerminateGuest(k)), GuestGone(k)).store.guests
  {
    hide Touched;
  }

  // A machine at rest goes on showing what its guest says, whatever all others do, exactly
  // when its guest carries the label that names it.
  lemma NoticedExactlyWhen(w: World, k: Key)
    requires Reachable(w) && AtRest(w, k)
    ensures (forall es | AllExternal(es) :: ShowsGuest(Run(w, es), k)) <==> Labelled(k, w.store.guests[k])
  {
    hide Run, Reachable, ShowsGuest;
    if Labelled(k, w.store.guests[k]) {
      forall es | AllExternal(es)
        ensures ShowsGuest(Run(w, es), k)
      {
        LabelledShows(w, k, es);
      }
    } else {
      ReachableInv(w);
      assert CellOK(k, View(w, k));
      var es := GoneUnnoticed(w, k);
      assert AllExternal(es);
    }
  }

  // ---- Machines do come to rest. ----

  // The machine's guest is up, its workload cluster can be reached and its Node is there.
  predicate Running(s: Store, k: Key, c: Context, x: Option<GuestSpec.Exposure>) {
    && Cleared(s, k, c, x) && k in s.guests && GuestStatus.Observe(s.guests[k].status).Up?
    && Connects(s.env, k, c) && NodeOf(k, c) in s.nodes
  }

  predicate Connects(env: Environment, k: Key, c: Context) {
    var secret := Lookup(env.secrets, Key(k.ns, c.before.clusterLabel + "-kubeconfig"));
    secret.Some? && secret.value.hasValue && secret.value.parses
  }

  // All that a reconcile would write is written.
  predicate Settled(s: Store, k: Key, c: Context, x: Option<GuestSpec.Exposure>) {
    && Running(s, k, c, x) && SeedKey(k) in s.seeds && SeedCurrent(s.seeds[SeedKey(k)], SecretName(c))
    && s.nodes[NodeOf(k, c)] != "" && c.before.owned == Mirror(k, c, s.guests[k])
  }

  lemma AdmittedMem(env: Environment, k: Key, c: Context)
    requires !c.before.deleting && Admit(env, k, c.before) == Admitted(c)
    ensures c.mem == c.before.owned.(finalizer := true)
  {
  }

  lemma NextContext(env: Environment, k: Key, c: Context, m: Machine)
    requires !c.before.deleting && Admit(env, k, c.before) == Admitted(c) && m == c.before.(owned := m.owned)
    ensures Admit(env, k, m) == Admitted(c.(before := m, mem := m.owned.(finalizer := true)))
  {
  }

  lemma ReconciledRuns(s: Store, k: Key, c: Context, x: Option<GuestSpec.Exposure>)
    requires Running(s, k, c, x)
    ensures Reconciled(s, k) == Judged(s.(seeds := EnsureSeed(s.seeds, k, SecretName(c))), k, c, s.guests[k])
  {
    assert ConfigOK(c.before.config, x.Some?);
    hide Admit, EnsureSeed, RenderFor, Judged, GuestStatus.Observe, NodeOf;
    assert EnsureGuest(s.guests, k, RenderFor(k, c, x)) == s.guests;
  }

  // One undisturbed reconcile writes everything there is to write.
  lemma ReconcileSettles(s: Store, k: Key, c: Context, x: Option<GuestSpec.Exposure>) returns (d: Context)
    requires Running(s, k, c, x)
    ensures var s' := Reconciled(s, k).store; Settled(s', k, d, x) && s'.guests == s.guests
    ensures d.owner == c.owner
  {
    hide GateOf, Admit, EnsureSeed, ConfigOK, RenderFor, GuestStatus.Observe, NodeOf, Reconciled, Judged, Connects, Mirror;
    AdmittedMem(s.env, k, c);
    ReconciledRuns(s, k, c, x);
    EnsureSeedTwice(s.seeds, k, SecretName(c));
    var s1 := s.(seeds := EnsureSeed(s.seeds, k, SecretName(c)));
    var e := Judged(s1, k, c, s.guests[k]);
    JudgedUp(s1, k, c, s.guests[k]);
    d := Again(e.store, k, c);
    GateTwice(s.env, k, c, d);
    NextContext(s.env, k, c, d.before);
    SameNode(k, c, d);
    assert Connects(s.env, k, d) by {
      SameKubeconfig(s.env, k, c, d);
    }
  }

  lemma SameNode(k: Key, c: Context, d: Context)
    requires d.before.clusterLabel == c.before.clusterLabel
    ensures NodeOf(k, d) == NodeOf(k, c)
  {
  }

  lemma SameKubeconfig(env: Environment, k: Key, c: Context, d: Context)
    requires d.before.clusterLabel == c.before.clusterLabel
    ensures Connects(env, k, d) == Connects(env, k, c)
  {
  }

  lemma JudgedUp(s: Store, k: Key, c: Context, g: Guest)
    requires k in s.machines && s.machines[k] == c.before && !c.before.deleting && c.mem.finalizer
    requires GuestStatus.Observe(g.status).Up?
    requires Connects(s.env, k, c) && NodeOf(k, c) in s.nodes
    ensures var e := Judged(s, k, c, g);
            && e.store == s.(machines := e.store.machines, nodes := e.store.nodes)
            && k in e.store.machines && e.store.machines[k] == c.before.(owned := Mirror(k, c, g))
            && Mirror(k, Again(e.store, k, c), g) == Mirror(k, c, g)
            && NodeOf(k, c) in e.store.nodes && e.store.nodes[NodeOf(k, c)] != ""
  {
    assert ProviderID(k)[0] == 'k';
  }

  // The reconcile has only read so far.
  ghost predicate Through(w: World, k: Key, es: seq<Event>, y: Job) {
    OwnWork(es, k) && Run(w, es) == w.(workers := w.workers[k := y])
  }

  lemma ReadOn(w: World, k: Key, es: seq<Event>, x: Job, y: Job) returns (fs: seq<Event>)
    requires Through(w, k, es, x) && Moves(k, w.store, x, w.store, y)
    ensures Through(w, k, fs, y)
  {
    hide Run, Exec, Resume, NextCall;
    fs := es + [Work(k, NoFault)];
    RunSnoc(w, es, Work(k, NoFault));
    assert Touched(w.store, w.store) == {};
    hide Touched;
    assert w.workers[k := x][k := y] == w.workers[k := y];
  }

  lemma GuestMoves(s: Store, k: Key, c: Context, x: Option<GuestSpec.Exposure>)
    requires Settled(s, k, c, x) && ConfigOK(c.before.config, x.Some?)
    ensures Moves(k, s, ReadSeed(c, x), s, ReadGuest(c, x))
    ensures Moves(k, s, ReadGuest(c, x), s, ReadKubeconfig(c.(mem := c.before.owned), s.guests[k]))
  {
    hide ConfigOK, GateOf, Admit, DesiredSeed, RenderFor, GuestStatus.Observe, NodeOf, Connects;
  }

  lemma NodeMoves(s: Store, k: Key, c: Context, x: Option<GuestSpec.Exposure>, d: Context)
    requires Settled(s, k, c, x) && d == c.(mem := c.before.owned)
    ensures Moves(k, s, ReadKubeconfig(d, s.guests[k]), s, ReadNode(d, s.guests[k]))
    ensures Moves(k, s, ReadNode(d, s.guests[k]), s, Persist(d, Some(s.guests[k]), Forget))
  {
    hide ConfigOK, GateOf, Admit, DesiredSeed, RenderFor, GuestStatus.Observe, Mirror, Validate, Judge;
  }

  lemma NothingToPersist(w: World, k: Key, c: Context, g: Guest)
    requires k in w.store.machines && w.store.machines[k] == c.before && !c.before.deleting
    requires k in w.workers && w.workers[k] == Persist(c, Some(g), Forget) && c.mem == c.before.owned
    ensures Apply(w, Work(k, NoFault)) == w.(workers := w.workers - {k}, reached := w.reached[k := g])
  {
    assert Exec(w.store, PatchMachine(k, c.before.owned, c.mem)) == (w.store, Done) by {
      assert Patched(c.before.owned, c.mem, c.before.owned) == c.before.owned;
      assert w.store.machines[k := c.before] == w.store.machines;
    }
    assert Touched(w.store, w.store) == {};
    hide Touched;
  }

  // The reconcile of a settled machine ends with the machine at rest, having written nothing.
  lemma SettledRound(w: World, k: Key, c: Context, x: Option<GuestSpec.Exposure>) returns (es: seq<Event>)
    requires Settled(w.store, k, c, x) && Stands(w, k, ReadMachine, w.store)
    ensures OwnWork(es, k)
    ensures Run(w, es) == w.(workers := w.workers - {k}, reached := w.reached[k := w.store.guests[k]])
  {
    var s, g, c' := w.store, w.store.guests[k], c.(mem := c.before.owned);
    assert k in s.machines && s.machines[k] == c.before && !c.before.deleting;
    assert Cleared(s, k, c, x);
    assert w.workers[k := ReadMachine] == w.workers && Run(w, []) == w;
    assert Through(w, k, [], ReadMachine);
    FirstMoves(s, k, c, x);
    ClusterMove(s, k, c, x);
    GateMoves(s, k, c, x);
    GuestMoves(s, k, c, x);
    NodeMoves(s, k, c, x, c');
    hide Settled, Cleared, Moves, ConfigOK, Through, Run, Apply;
    es := ReadOn(w, k, [], ReadMachine, ReadOwner(c.before));
    es := ReadOn(w, k, es, ReadOwner(c.before), ReadCluster(c.before, c.owner));
    es := ReadOn(w, k, es, ReadCluster(c.before, c.owner), ReadBootstrap(c));
    if c.owner.controlPlane && c.cluster.infraRef != "" {
      es := ReadOn(w, k, es, ReadBootstrap(c), ReadInfra(c));
      es := ReadOn(w, k, es, ReadInfra(c), ReadSeed(c, x));
    } else {
      es := ReadOn(w, k, es, ReadBootstrap(c), ReadSeed(c, x));
    }
    es := ReadOn(w, k, es, ReadSeed(c, x), ReadGuest(c, x));
    es := ReadOn(w, k, es, ReadGuest(c, x), ReadKubeconfig(c', g));
    es := ReadOn(w, k, es, ReadKubeconfig(c', g), ReadNode(c', g));
    es := ReadOn(w, k, es, ReadNode(c', g), Persist(c', Some(g), Forget));
    es := LastCall(w, k, es, c', g);
  }

  lemma LastCall(w: World, k: Key, es: seq<Event>, c: Context, g: Guest) returns (fs: seq<Event>)
    requires Through(w, k, es, Persist(c, Some(g), Forget))
    requires k in w.store.machines && w.store.machines[k] == c.before && !c.before.deleting && c.mem == c.before.owned
    ensures OwnWork(fs, k)
    ensures Run(w, fs) == w.(workers := w.workers - {k}, reached := w.reached[k := g])
  {
    hide Run, Apply;
    fs := es + [Work(k, NoFault)];
    RunSnoc(w, es, Work(k, NoFault));
    NothingToPersist(Run(w, es), k, c, g);
    assert w.workers[k := Persist(c, Some(g), Forget)] - {k} == w.workers - {k};
  }

  // A machine whose guest is up comes to rest after two undisturbed reconciles.
  lemma ComesToRest(w: World, k: Key, c: Context, x: Option<GuestSpec.Exposure>) returns (es: seq<Event>)
    requires Running(w.store, k, c, x) && k !in w.workers && k in w.queue
    ensures AtRest(Run(w, es), k)
    ensures Run(w, es).store.guests == w.store.guests
    ensures var o := Run(w, es).store.machines[k].owned;
            && o.provisioned == Some(true)
            && HasOwner(w.store, k) && o.failureDomain == OwnerOf(w.store, k).failureDomain
  {
    hide Run, Apply, Reconciled, Round, Running, Cleared, Connects, GuestStatus.Observe;
    var v := Run(w, Round(k));
    RoundReconciles(w, k);
    var d := ReconcileSettles(w.store, k, c, x);
    var v1 := Apply(v, Enqueue(k));
    var v2 := Apply(v1, Start(k));
    Starts(v, k);
    var work := SettledRound(v2, k, d, x);
    es := Round(k) + [Enqueue(k)] + [Start(k)] + work;
    RunSnoc(w, Round(k), Enqueue(k));
    RunSnoc(w, Round(k) + [Enqueue(k)], Start(k));
    RunConcat(w, Round(k) + [Enqueue(k)] + [Start(k)], work);
    SettledIsUp(v.store, k, d, x);
    RunningOwner(w.store, k, c, x);
  }

  lemma Starts(v: World, k: Key)
    requires k !in v.workers
    ensures var v2 := Apply(Apply(v, Enqueue(k)), Start(k));
            && v2.store == v.store && k in v2.workers && v2.workers[k] == ReadMachine
            && k !in v2.queue && v2.reached == v.reached
  {
  }

  lemma SettledIsUp(s: Store, k: Key, c: Context, x: Option<GuestSpec.Exposure>)
    requires Settled(s, k, c, x)
    ensures k in s.machines && !s.machines[k].deleting && s.machines[k].owned.provisioned == Some(true)
    ensures s.machines[k].owned.failureDomain == c.owner.failureDomain
    ensures k in s.guests
  {
  }

  lemma RunningOwner(s: Store, k: Key, c: Context, x: Option<GuestSpec.Exposure>)
    requires Running(s, k, c, x)
    ensures HasOwner(s, k) && OwnerOf(s, k) == c.owner
  {
  }

  // ---- A world in which a guest without the label has gone unnoticed. ----

  // A virtual machine that somebody else made under the machine's name.
  const OthersGuest := Guest(
    GuestSpec.Rendered(GuestSpec.Spec("ubuntu", "small", "", None, None, None, None, None, None), map[]),
    false, GuestStatus.Status("Running", "10.0.0.7", "", "", []))

  const ExampleWorld := World(
    Store(map[Example.AKey := Example.AMachine], map[Example.AKey := OthersGuest], map[],
          map[NodeKey("default", "demo", "md-0") := ""], Example.AnEnvironment),
    map[], {Example.AKey}, map[])

  lemma ExampleIsInitial()
    ensures Initial(ExampleWorld)
  {
  }

  lemma ExampleIsCleared()
    ensures Cleared(ExampleWorld.store, Example.AKey, Example.AContext, None)
  {
    Example.ConfigIsOK();
    hide ConfigOK;
  }

  lemma OthersGuestIsUp()
    ensures GuestStatus.Observe(OthersGuest.status).Up?
  {
    GuestStatus.ObserveMeans(OthersGuest.status, GuestStatus.Up([GuestStatus.Address("InternalIP", "10.0.0.7")]));
  }

  lemma ExampleIsRunning()
    ensures Running(ExampleWorld.store, Example.AKey, Example.AContext, None)
  {
    hide Cleared, GuestStatus.Observe;
    ExampleIsCleared();
    OthersGuestIsUp();
  }

  // The machine is provisioned and ready, nothing is pending, and its virtual machine is gone.
  lemma UnnoticedIsReachable()
    ensures exists w, k :: Reachable(w) && !ShowsGuest(w, k) && k !in w.store.guests
                        && k in w.store.machines && w.store.machines[k].owned.provisioned == Some(true)
  {
    hide Initial, Running, Run, ShowsGuest, Reachable, Fresh;
    ExampleIsRunning();
    var es := ComesToRest(ExampleWorld, Example.AKey, Example.AContext, None);
    var w := Run(ExampleWorld, es);
    assert Subject(Example.AKey, w.store.guests[Example.AKey]) == None;
    var ds := GoneUnnoticed(w, Example.AKey);
    UnlabelledGoesUnnoticed(w, ds, Example.AKey);
    RunConcat(ExampleWorld, es, ds);
    ExampleReaches(es + ds);
  }

  lemma ExampleReaches(es: seq<Event>)
    ensures Reachable(Run(ExampleWorld, es))
  {
    ExampleIsInitial();
    hide Initial, Run;
  }
}
