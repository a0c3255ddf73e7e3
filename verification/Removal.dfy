/** Removing a machine object: exactly when some run from there leaves a guest or a seed behind. */
module Removal {
  import opened Prelude
  import opened Names
  import opened GuestConfig
  import opened MachineObject
  import opened ApiServer
  import opened Controller
  import opened Protocol
  import opened Safety
  import opened Lifecycle

  // Something the provider made for k exists.
  predicate Leftover(k: Key, c: Cell) {
    !NoOwnGuest(k, c) || c.seed.Some?
  }

  // No gate that reads the machine object alone is in the way.
  predicate Buildable(m: Machine) {
    !m.paused && m.backendType == SwiftGuestBackend && ConfigOK(m.config, false)
  }

  // A reconcile in flight that has read enough to create the seed, whatever becomes of the
  // object; what it still has to read can be there by then.
  predicate CanStillMake(x: Job) {
    match x
    case ReadOwner(m) => !m.deleting && m.clusterLabel != "" && Buildable(m)
    case ReadCluster(m, o) => !m.deleting && o.dataSecret.Some? && Buildable(m)
    case ReadBootstrap(c) => ConfigOK(c.before.config, false)
    case ReadInfra(c) => ConfigOK(c.before.config, false)
    case ReadSeed(_, _) => true
    case MakeSeed(_, _) => true
    case _ => false
  }

  // ---- A removed object stays harmless if nothing is left and nobody can make anything. ----

  predicate Sterile(k: Key, c: Cell) {
    && c.machine.None? && !Leftover(k, c)
    && (c.worker.Some? ==> !CanStillMake(c.worker.value))
  }

  lemma SterileResumes(k: Key, c: Cell, x: Job, r: Reply)
    requires !CanStillMake(x) && c.machine.None? && c.seed.None? && JobOK(k, c, x) && Truthful(k, c, x, r)
    requires x.MoveSeed? ==> r != Done
    ensures var p := Resume(k, x, r); p.Continue? ==> !CanStillMake(p.job)
  {
    hide GpuOK, PlacementOK, InterfacesOK, PrimaryOnNAD, Mirrors, StatusOK, MachineOK, Mirror;
  }

  lemma NoSeedToTouch(w: World, k: Key, f: Fault)
    requires k in w.workers && (w.workers[k].MoveSeed? || w.workers[k].KillSeed?) && SeedKey(k) !in w.store.seeds
    ensures StoreAfter(w, k, f) == w.store
    ensures w.workers[k].MoveSeed? ==> ReplyOf(w, k, f) != Done
  {
  }

  lemma SterileWork(w: World, k: Key, f: Fault)
    requires k in w.workers && CellOK(k, View(w, k)) && Sterile(k, View(w, k))
    ensures Sterile(k, View(Advance(w, k, f), k))
  {
    hide Advance, StoreAfter, ReplyOf, JobOK, CanStillMake, Resume;
    var c, x, r := View(w, k), w.workers[k], ReplyOf(w, k, f);
    assert JobOK(k, c, x);
    AdvanceView(w, k, f);
    CallWrites(w, k, f);
    if Reads(x) {
      ReadCall(w, k, f);
      SterileResumes(k, c, x, r);
    } else {
      SterileCall(w, k, f);
      if x.MoveSeed? {
        NoSeedToTouch(w, k, f);
      }
      SterileResumes(k, c, x, r);
    }
  }

  // A call that writes makes nothing for a sterile k.
  lemma SterileCall(w: World, k: Key, f: Fault)
    requires k in w.workers && !Reads(w.workers[k]) && JobOK(k, View(w, k), w.workers[k]) && Sterile(k, View(w, k))
    ensures var a := At(StoreAfter(w, k, f), k);
            a.machine.None? && a.seed.None? && (a.guest.Some? ==> !Labelled(k, a.guest.value))
    ensures Truthful(k, View(w, k), w.workers[k], ReplyOf(w, k, f))
  {
    hide Advance, Mirrors, StatusOK, MachineOK, StoreAfter, ReplyOf;
    var x := w.workers[k];
    CallWrites(w, k, f);
    if x.Persist? {
      PersistCall(w, k, f);
    } else if x.KillGuest? {
      GuestCall(w, k, f);
    } else if x.MoveSeed? || x.KillSeed? {
      NoSeedToTouch(w, k, f);
    }
  }

  lemma SterileOutside(w: World, e: Event, k: Key)
    requires External(e) && (e.CreateMachine? ==> e.k != k) && OwnKey(k, View(w, k).guest) && Sterile(k, View(w, k))
    ensures Sterile(k, View(Apply(w, e), k))
  {
    hide CanStillMake;
    OutsideIsStep(w.store, e, k);
  }

  lemma SterileElsewhere(w: World, j: Key, f: Fault, k: Key)
    requires j in w.workers && j != k && Sterile(k, View(w, k))
    ensures Sterile(k, View(Advance(w, j, f), k))
  {
    hide CanStillMake;
    CallFrame(w.store, j, w.workers[j], f, k);
    assert View(Advance(w, j, f), k) == View(w, k).(pending := View(Advance(w, j, f), k).pending);
  }

  lemma SterileStep(w: World, e: Event, k: Key)
    requires CellOK(k, View(w, k)) && Sterile(k, View(w, k)) && (e.CreateMachine? ==> e.k != k)
    ensures Sterile(k, View(Apply(w, e), k))
  {
    if External(e) {
      hide JobOK, Apply, Sterile;
      SterileOutside(w, e, k);
    } else if e.Work? {
      hide CellOK, Advance, Sterile;
      if e.k in w.workers && e.k == k {
        SterileWork(w, k, e.fault);
      } else if e.k in w.workers {
        SterileElsewhere(w, e.k, e.fault, k);
      }
    } else {
      hide CellOK;
    }
  }

  lemma {:induction false} SterileRun(w: World, es: seq<Event>, k: Key)
    requires Inv(w) && Sterile(k, View(w, k)) && NeverCreates(es, k)
    ensures Sterile(k, View(Run(w, es), k))
  {
    if es != [] {
      var front, e := es[..|es| - 1], es[|es| - 1];
      assert e in es;
      SterileRun(w, front, k);
      RunKeepsInv(w, front);
      assert CellOK(k, View(Run(w, front), k));
      SterileStep(Run(w, front), e, k);
    }
  }

  // ---- A reconcile that can still make something may do so. ----

  // An environment in which the next read lets the reconcile go on.
  function Helpful(k: Key, x: Job): Environment {
    match x
    case ReadOwner(m) =>
      Environment(map[Key(k.ns, m.owner.value) := CapiMachine(Some(""), false, "")], map[], map[], map[])
    case ReadCluster(m, o) =>
      Environment(map[], map[Key(k.ns, m.clusterLabel) := Cluster(true, "", false)], map[], map[])
    case ReadBootstrap(c) =>
      Environment(map[], map[], map[], map[Key(k.ns, SecretName(c)) := Secret(true, true)])
    case ReadInfra(c) =>
      Environment(map[], map[], map[Key(k.ns, c.cluster.infraRef) := None], map[])
    case _ => Environment(map[], map[], map[], map[])
  }

  lemma Helped(w: World, k: Key)
    requires k in w.workers && CanStillMake(w.workers[k])
    ensures var x, v := w.workers[k], Apply(w, ChangeEnvironment(Helpful(k, w.workers[k])));
            && k in v.workers && v.workers[k] == x
            && v.store == w.store.(env := Helpful(k, x))
  {
    hide Helpful, CanStillMake;
  }

  // The position after the next call.
  lemma GoesOn(s: Store, k: Key, x: Job)
    requires CanStillMake(x) && !x.MakeSeed? && s.env == Helpful(k, x)
    requires x.ReadSeed? ==> SeedKey(k) !in s.seeds
    ensures var p := Resume(k, x, Exec(s, NextCall(k, x)).1);
            p.Continue? && CanStillMake(p.job) && CallsLeft(p.job) < CallsLeft(x)
  {
    hide GpuOK, PlacementOK, InterfacesOK, PrimaryOnNAD, Mirror, DesiredSeed, Migrated, RenderFor;
  }

  lemma WorkGoesOn(w: World, k: Key)
    requires k in w.workers
    ensures var p := Resume(k, w.workers[k], Exec(w.store, NextCall(k, w.workers[k])).1);
            var v := Apply(w, Work(k, NoFault));
            && (p.Continue? ==> k in v.workers && v.workers[k] == p.job)
            && v.store == Exec(w.store, NextCall(k, w.workers[k])).0
  {
    hide Exec, Resume, NextCall, Touched;
  }

  lemma SeedIsMade(w: World, k: Key)
    requires k in w.workers && w.workers[k].MakeSeed?
    ensures SeedKey(k) in Apply(w, Work(k, NoFault)).store.seeds
  {
    hide Resume, DesiredSeed;
  }

  lemma {:induction false} MakesSomething(w: World, k: Key) returns (es: seq<Event>)
    requires k in w.workers && CanStillMake(w.workers[k])
    ensures NeverCreates(es, k) && Leftover(k, View(Run(w, es), k))
    decreases CallsLeft(w.workers[k])
  {
    hide Apply, CanStillMake, Resume, Exec, NextCall, Helpful, CallsLeft;
    var x := w.workers[k];
    if SeedKey(k) in w.store.seeds {
      es := [];
    } else if x.MakeSeed? {
      SeedIsMade(w, k);
      es := [Work(k, NoFault)];
      RunOne(w, Work(k, NoFault));
    } else {
      var v := Apply(w, ChangeEnvironment(Helpful(k, x)));
      var u := Apply(v, Work(k, NoFault));
      Helped(w, k);
      GoesOn(v.store, k, x);
      WorkGoesOn(v, k);
      var rest := MakesSomething(u, k);
      var first := [ChangeEnvironment(Helpful(k, x)), Work(k, NoFault)];
      es := first + rest;
      RunTwo(w, ChangeEnvironment(Helpful(k, x)), Work(k, NoFault));
      RunConcat(w, first, rest);
    }
  }

  lemma RunOne(w: World, e: Event)
    ensures Run(w, [e]) == Apply(w, e)
  {
    hide Apply;
    RunSnoc(w, [], e);
    assert [] + [e] == [e];
  }

  lemma RunTwo(w: World, e: Event, d: Event)
    ensures Run(w, [e, d]) == Apply(Apply(w, e), d)
  {
    hide Apply;
    RunOne(w, e);
    RunSnoc(w, [e], d);
    assert [e] + [d] == [e, d];
  }

  // ---- Exactly when. ----

  // The reconcile in flight, if any, before a step that removes the machine object.
  lemma RemovalSparesRest(w: World, e: Event, k: Key)
    requires k in w.store.machines && k !in Apply(w, e).store.machines
    ensures var v := Apply(w, e);
            && v.store.guests == w.store.guests && v.store.seeds == w.store.seeds
            && (k in v.workers ==> k in w.workers && v.workers[k] == w.workers[k])
            && (k in w.workers && CanStillMake(w.workers[k]) ==> k in v.workers)
  {
    if e.Work? && e.k in w.workers {
      RemovalByWork(w, e.k, e.fault, k);
    }
  }

  lemma RemovalByWork(w: World, k: Key, f: Fault, j: Key)
    requires k in w.workers && j in w.store.machines && j !in Advance(w, k, f).store.machines
    ensures var v := Advance(w, k, f);
            && v.store.guests == w.store.guests && v.store.seeds == w.store.seeds
            && k == j && w.workers[k].Persist? && k !in v.workers
  {
    CallWrites(w, k, f);
    if k != j {
      CallFrame(w.store, k, w.workers[k], f, j);
    }
  }

  lemma {:induction false} GoneForGood(w: World, es: seq<Event>, k: Key)
    requires k !in w.store.machines && NeverCreates(es, k)
    ensures k !in Run(w, es).store.machines
  {
    if es != [] {
      var front, e := es[..|es| - 1], es[|es| - 1];
      assert e in es;
      GoneForGood(w, front, k);
      StaysGone(Run(w, front), e, k);
    }
  }

  lemma StaysGone(w: World, e: Event, k: Key)
    requires k !in w.store.machines && (e.CreateMachine? ==> e.k != k)
    ensures k !in Apply(w, e).store.machines
  {
    if e.Work? {
      hide Advance;
      if e.k in w.workers {
        AdvanceAddsNoMachine(w, e.k, e.fault);
      }
    }
  }

  // With no work outstanding that would still remove it.
  ghost predicate SomeRunLeaves(w: World, k: Key) {
    exists es :: NeverCreates(es, k) && Leftover(k, View(Run(w, es), k)) && Quiet(View(Run(w, es), k))
  }

  // From a step that removes the machine object, some run leaves a guest or a seed behind
  // exactly when the finalizer was not stored and either something had been made already or a
  // reconcile was in flight that can still make it.
  lemma RemovalLeavesOrphan(w: World, e: Event, k: Key)
    requires Reachable(w)
    requires k in w.store.machines && k !in Apply(w, e).store.machines
    ensures SomeRunLeaves(Apply(w, e), k)
            <==> && !w.store.machines[k].owned.finalizer
                 && (Leftover(k, View(w, k)) || (k in w.workers && CanStillMake(w.workers[k])))
  {
    hide Apply, Run, Leftover, CanStillMake;
    ReachableInv(w);
    var v := Apply(w, e);
    RemovalSparesRest(w, e, k);
    RemovalIsNoCreation(w, e, k);
    StepKeepsInv(w, e);
    SameLeftover(w, v, k);
    if w.store.machines[k].owned.finalizer {
      ProtectedLeavesNothing(w, e, k);
    } else if Leftover(k, View(v, k)) {
      RunNone(v, k);
      LeavesAfterRestart(v, [], k);
    } else if k in w.workers && CanStillMake(w.workers[k]) {
      var es := MakesSomething(v, k);
      LeavesAfterRestart(v, es, k);
    } else {
      forall es | NeverCreates(es, k)
        ensures !Leftover(k, View(Run(v, es), k))
      {
        SterileRun(v, es, k);
      }
    }
  }

  lemma RunNone(v: World, k: Key)
    ensures Run(v, []) == v && NeverCreates([], k)
  {
  }

  // A restart drops the reconciles in flight, and the removed object is not listed again.
  lemma LeavesAfterRestart(v: World, es: seq<Event>, k: Key)
    requires k !in v.store.machines && NeverCreates(es, k) && Leftover(k, View(Run(v, es), k))
    ensures SomeRunLeaves(v, k)
  {
    GoneForGood(v, es, k);
    RunSnoc(v, es, Crash);
    hide Run;
    assert NeverCreates(es + [Crash], k);
    assert Leftover(k, View(Run(v, es + [Crash]), k)) && Quiet(View(Run(v, es + [Crash]), k));
  }

  lemma SameLeftover(w: World, v: World, k: Key)
    requires v.store.guests == w.store.guests && v.store.seeds == w.store.seeds
    ensures Leftover(k, View(v, k)) == Leftover(k, View(w, k))
  {
  }

  lemma RemovalIsNoCreation(w: World, e: Event, k: Key)
    requires k in w.store.machines && k !in Apply(w, e).store.machines
    ensures e.CreateMachine? ==> e.k != k
  {
  }

  lemma ProtectedLeavesNothing(w: World, e: Event, k: Key)
    requires Inv(w) && k in w.store.machines && w.store.machines[k].owned.finalizer
    requires k !in Apply(w, e).store.machines && (e.CreateMachine? ==> e.k != k)
    ensures !SomeRunLeaves(Apply(w, e), k)
  {
    hide Apply, Run, Inv, NeverCreates;
    var v := Apply(w, e);
    forall es | NeverCreates(es, k)
      ensures !Leftover(k, View(Run(v, es), k))
    {
      ProtectedRun(w, e, es, k);
    }
  }

  lemma ProtectedRun(w: World, e: Event, es: seq<Event>, k: Key)
    requires Inv(w) && k in w.store.machines && w.store.machines[k].owned.finalizer
    requires k !in Apply(w, e).store.machines && (e.CreateMachine? ==> e.k != k) && NeverCreates(es, k)
    ensures !Leftover(k, View(Run(Apply(w, e), es), k))
  {
    hide Apply, Run, Inv;
    RunOne(w, e);
    RunConcat(w, [e], es);
    RunKeepsGuarded(w, [e] + es, k);
    GoneForGood(Apply(w, e), es, k);
  }
}
