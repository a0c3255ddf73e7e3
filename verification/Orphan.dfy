/** The window before the finalizer is stored: an object deleted during its very first reconcile
    leaves a guest and a seed behind, and no work is pending that would remove them. */
module Orphan {
  import opened Prelude
  import opened Names
  import opened GuestConfig
  import opened MachineObject
  import opened ApiServer
  import opened Controller
  import opened Protocol
  import opened Safety
  import opened Lifecycle
  import opened Sequential
  import opened Trace
  import Example
  import GuestSpec
  import GuestStatus

  // A new machine that its first reconcile will give a seed and a guest.
  predicate Unbuilt(s: Store, k: Key, c: Context, x: Option<GuestSpec.Exposure>) {
    && Cleared(s, k, c, x) && c.before.owned == Fresh && !c.before.otherFinalizers
    && k !in s.guests && SeedKey(k) !in s.seeds
  }

  // ---- The calls of that reconcile. ----

  function WithSeed(s: Store, k: Key, c: Context): Store {
    s.(seeds := s.seeds[SeedKey(k) := DesiredSeed(k, SecretName(c))])
  }

  lemma SeedMoves(s: Store, k: Key, c: Context, x: Option<GuestSpec.Exposure>)
    requires Unbuilt(s, k, c, x) && ConfigOK(c.before.config, x.Some?)
    ensures Moves(k, s, ReadSeed(c, x), s, MakeSeed(c, x))
    ensures Moves(k, s, MakeSeed(c, x), WithSeed(s, k, c), ReadGuest(c, x))
    ensures Moves(k, WithSeed(s, k, c), ReadGuest(c, x), WithSeed(s, k, c), MakeGuest(c, x))
  {
    hide ConfigOK, GateOf, Admit, DesiredSeed;
  }

  function Born(k: Key, c: Context, x: Option<GuestSpec.Exposure>): Guest
    requires ConfigOK(c.before.config, x.Some?)
  {
    Guest(RenderFor(k, c, x), false, GuestStatus.Blank)
  }

  function WithGuest(s: Store, k: Key, c: Context, x: Option<GuestSpec.Exposure>): Store
    requires ConfigOK(c.before.config, x.Some?)
  {
    WithSeed(s, k, c).(guests := s.guests[k := Born(k, c, x)])
  }

  // What the reconcile is about to store.
  function LastJob(k: Key, c: Context, x: Option<GuestSpec.Exposure>): Job
    requires ConfigOK(c.before.config, x.Some?)
  {
    Persist(c.(mem := Mirror(k, c, Born(k, c, x))), Some(Born(k, c, x)), Later)
  }

  lemma GuestMove(s: Store, k: Key, c: Context, x: Option<GuestSpec.Exposure>)
    requires Unbuilt(s, k, c, x) && ConfigOK(c.before.config, x.Some?)
    ensures Moves(k, WithSeed(s, k, c), MakeGuest(c, x), WithGuest(s, k, c, x), LastJob(k, c, x))
  {
    hide ConfigOK, GateOf, Admit, DesiredSeed, RenderFor;
    assert GuestStatus.Blank.phase != "Running" && GuestStatus.Blank.phase != "Failed";
    assert GuestStatus.Observe(GuestStatus.Blank).Waiting?;
  }

  lemma ToPersist(w: World, k: Key, c: Context, x: Option<GuestSpec.Exposure>) returns (es: seq<Event>)
    requires Unbuilt(w.store, k, c, x) && Stands(w, k, ReadMachine, w.store)
    ensures ConfigOK(c.before.config, x.Some?)
    ensures Leads(w, k, es, LastJob(k, c, x), WithGuest(w.store, k, c, x))
  {
    assert Cleared(w.store, k, c, x);
    hide Unbuilt, Cleared, Moves, ConfigOK, Stands, LastJob, WithGuest, WithSeed;
    var s := w.store;
    FirstMoves(s, k, c, x);
    ClusterMove(s, k, c, x);
    GateMoves(s, k, c, x);
    SeedMoves(s, k, c, x);
    GuestMove(s, k, c, x);
    assert Run(w, []) == w;
    assert Leads(w, k, [], ReadMachine, s);
    hide Leads;
    es := OneMore(w, k, [], ReadMachine, s, ReadOwner(c.before), s);
    es := OneMore(w, k, es, ReadOwner(c.before), s, ReadCluster(c.before, c.owner), s);
    es := OneMore(w, k, es, ReadCluster(c.before, c.owner), s, ReadBootstrap(c), s);
    if c.owner.controlPlane && c.cluster.infraRef != "" {
      es := OneMore(w, k, es, ReadBootstrap(c), s, ReadInfra(c), s);
      es := OneMore(w, k, es, ReadInfra(c), s, ReadSeed(c, x), s);
    } else {
      es := OneMore(w, k, es, ReadBootstrap(c), s, ReadSeed(c, x), s);
    }
    es := OneMore(w, k, es, ReadSeed(c, x), s, MakeSeed(c, x), s);
    es := OneMore(w, k, es, MakeSeed(c, x), s, ReadGuest(c, x), WithSeed(s, k, c));
    es := OneMore(w, k, es, ReadGuest(c, x), WithSeed(s, k, c), MakeGuest(c, x), WithSeed(s, k, c));
    es := OneMore(w, k, es, MakeGuest(c, x), WithSeed(s, k, c), LastJob(k, c, x), WithGuest(s, k, c, x));
  }

  // ---- The deletion that comes in between. ----

  // The machine is gone, its guest and its seed are there, and no work on it is outstanding.
  predicate Orphaned(w: World, k: Key) {
    && k !in w.store.machines && Quiet(View(w, k))
    && k in w.store.guests && Labelled(k, w.store.guests[k]) && SeedKey(k) in w.store.seeds
  }

  lemma DeletedMeanwhile(w: World, k: Key, c: Context, x: Option<GuestSpec.Exposure>, s: Store)
    requires ConfigOK(c.before.config, x.Some?) && KubeKey(k)
    requires k in s.machines && s.machines[k].owned == Fresh && !s.machines[k].otherFinalizers
    requires Stands(w, k, LastJob(k, c, x), WithGuest(s, k, c, x))
    ensures var w1 := Apply(w, DeleteMachine(k));
            var s1 := WithGuest(s, k, c, x).(machines := s.machines - {k});
            Stands(w1, k, LastJob(k, c, x), s1)
  {
    hide ConfigOK, Mirror, Born, Touched;
  }

  lemma PersistTooLate(w: World, k: Key, c: Context, last: Option<Guest>, v: Verdict)
    requires Stands(w, k, Persist(c, last, v), w.store) && k !in w.store.machines
    ensures var w1 := Apply(w, Work(k, NoFault));
            w1.store == w.store && k !in w1.workers && k in w1.queue
  {
    hide Touched;
  }

  lemma NothingToDo(w: World, k: Key)
    requires k !in w.workers && k in w.queue && k !in w.store.machines
    ensures var w1 := Apply(Apply(w, Start(k)), Work(k, NoFault));
            w1.store == w.store && Quiet(View(w1, k))
  {
    assert Touched(w.store, w.store) == {};
    hide Touched;
  }

  lemma BornIsLabelled(k: Key, c: Context, x: Option<GuestSpec.Exposure>)
    requires ConfigOK(c.before.config, x.Some?) && KubeKey(k)
    ensures Labelled(k, Born(k, c, x))
  {
    GuestSpec.RenderWellFormed(k.name, c.before.clusterLabel, c.before.config.value, x);
    hide GuestSpec.Render, ConfigOK;
  }

  // The calls of one undisturbed reconcile up to its patch, the user's deletion, the patch that
  // comes too late, and one more reconcile that finds nothing to do.
  lemma FirstReconcileCanOrphan(w: World, k: Key, c: Context, x: Option<GuestSpec.Exposure>)
    returns (work: seq<Event>, es: seq<Event>)
    requires Unbuilt(w.store, k, c, x) && Stands(w, k, ReadMachine, w.store) && KubeKey(k)
    ensures OwnWork(work, k)
    ensures es == work + [DeleteMachine(k), Work(k, NoFault), Start(k), Work(k, NoFault)]
    ensures Orphaned(Run(w, es), k)
  {
    hide ConfigOK, Run, Apply, Mirror, GateOf, Admit, Born;
    work := ToPersist(w, k, c, x);
    var w0 := Run(w, work);
    var w1 := Apply(w0, DeleteMachine(k));
    var w2 := Apply(w1, Work(k, NoFault));
    var w3 := Apply(w2, Start(k));
    var w4 := Apply(w3, Work(k, NoFault));
    DeletedMeanwhile(w0, k, c, x, w.store);
    PersistTooLate(w1, k, c.(mem := Mirror(k, c, Born(k, c, x))), Some(Born(k, c, x)), Later);
    NothingToDo(w2, k);
    BornIsLabelled(k, c, x);
    RunSnoc(w, work, DeleteMachine(k));
    RunSnoc(w, work + [DeleteMachine(k)], Work(k, NoFault));
    RunSnoc(w, work + [DeleteMachine(k)] + [Work(k, NoFault)], Start(k));
    RunSnoc(w, work + [DeleteMachine(k)] + [Work(k, NoFault)] + [Start(k)], Work(k, NoFault));
    es := work + [DeleteMachine(k)] + [Work(k, NoFault)] + [Start(k)] + [Work(k, NoFault)];
    assert es == work + [DeleteMachine(k), Work(k, NoFault), Start(k), Work(k, NoFault)];
  }

  // ---- One such world. ----

  const ExampleWorld := World(
    Store(map[Example.AKey := Example.AMachine], map[], map[], map[], Example.AnEnvironment), map[], {Example.AKey}, map[])

  lemma ExampleIsUnbuilt()
    ensures Initial(ExampleWorld) && KubeKey(Example.AKey)
    ensures Unbuilt(ExampleWorld.store, Example.AKey, Example.AContext, None)
  {
    Example.ConfigIsOK();
  }

  // Without a stored finalizer, the absence of orphans is not a property of reachable worlds.
  lemma OrphanIsReachable()
    ensures exists w, k :: Reachable(w) && Orphaned(w, k)
  {
    hide Initial, Unbuilt, Orphaned, Apply, Run, Fresh;
    ExampleIsUnbuilt();
    var w := Apply(ExampleWorld, Start(Example.AKey));
    ExampleStarts();
    var work, es := FirstReconcileCanOrphan(w, Example.AKey, Example.AContext, None);
    RunCons(ExampleWorld, Start(Example.AKey), es);
    assert Reachable(Run(ExampleWorld, [Start(Example.AKey)] + es));
  }

  lemma ExampleStarts()
    ensures var w := Apply(ExampleWorld, Start(Example.AKey));
            Stands(w, Example.AKey, ReadMachine, w.store) && w.store == ExampleWorld.store
  {
  }
}
