/** Guarantees over whole runs: nothing is left behind, and nothing written once is rewritten. */
module Lifecycle {
  import opened Prelude
  import opened Names
  import opened GuestConfig
  import opened MachineObject
  import opened ApiServer
  import opened Controller
  import opened Protocol
  import opened Safety

  // ---- No orphan once the finalizer is stored. ----

  // The provider's finalizer holds the object.
  predicate Protected(c: Cell) {
    c.machine.Some? && c.machine.value.owned.finalizer
  }

  // A worker that cannot create anything: it has read nothing yet, or an object being deleted.
  predicate Harmless(x: Job) {
    match x
    case ReadMachine => true
    case ReadOwner(m) => m.deleting
    case ReadCluster(m, _) => m.deleting
    case _ => x.c.before.deleting
  }

  // Whatever the provider made for k is gone, and no reconcile in flight can make it again.
  predicate Released(k: Key, c: Cell) {
    && (c.machine.Some? ==> c.machine.value.deleting && !c.machine.value.owned.finalizer)
    && NoOwnGuest(k, c)
    && c.seed.None?
    && (c.worker.Some? ==> Harmless(c.worker.value))
  }

  predicate Guarded(k: Key, c: Cell) {
    Protected(c) || Released(k, c)
  }

  lemma HarmlessResumes(k: Key, c: Cell, x: Job, r: Reply)
    requires Harmless(x) && Truthful(k, c, x, r)
    requires c.machine.Some? ==> c.machine.value.deleting
    ensures var p := Resume(k, x, r); p.Continue? ==> Harmless(p.job)
  {
  }

  lemma ReadKeepsGuarded(w: World, k: Key, f: Fault)
    requires k in w.workers && Reads(w.workers[k]) && Guarded(k, View(w, k))
    ensures Guarded(k, View(Advance(w, k, f), k))
  {
    AdvanceView(w, k, f);
    ReadCall(w, k, f);
    if Released(k, View(w, k)) {
      HarmlessResumes(k, View(w, k), w.workers[k], ReplyOf(w, k, f));
    }
  }

  lemma SeedKeepsGuarded(w: World, k: Key, f: Fault)
    requires k in w.workers && Guarded(k, View(w, k))
    requires w.workers[k].MakeSeed? || w.workers[k].MoveSeed? || w.workers[k].KillSeed?
    requires JobOK(k, View(w, k), w.workers[k])
    ensures Guarded(k, View(Advance(w, k, f), k))
  {
    AdvanceView(w, k, f);
    SeedCall(w, k, f);
  }

  lemma GuestKeepsGuarded(w: World, k: Key, f: Fault)
    requires k in w.workers && Guarded(k, View(w, k))
    requires w.workers[k].MakeGuest? || w.workers[k].KillGuest?
    requires JobOK(k, View(w, k), w.workers[k])
    ensures Guarded(k, View(Advance(w, k, f), k))
  {
    AdvanceView(w, k, f);
    GuestCall(w, k, f);
  }

  lemma PersistKeepsGuarded(w: World, k: Key, f: Fault)
    requires k in w.workers && Guarded(k, View(w, k)) && w.workers[k].Persist?
    requires JobOK(k, View(w, k), w.workers[k])
    ensures Guarded(k, View(Advance(w, k, f), k))
  {
    var c, x := View(w, k), w.workers[k];
    AdvanceView(w, k, f);
    PersistCall(w, k, f);
    if c.machine.Some? {
      PatchedIsMem(k, c, x.c, x.last, x.verdict);
    }
  }

  lemma OutsideKeepsGuarded(w: World, e: Event, k: Key)
    requires External(e) && e.CreateMachine? ==> e.k != k
    requires External(e) && CellOK(k, View(w, k)) && Guarded(k, View(w, k))
    ensures Guarded(k, View(Apply(w, e), k))
  {
    hide OutsideGuests, OutsideSeeds, OutsideNodes, Touched, Harmless, JobOK, MirrorOK, MachineOK;
    OutsideIsStep(w.store, e, k);
    MovedView(w, Outside(w.store, e), k);
  }

  lemma OthersKeepGuarded(w: World, k: Key, f: Fault, j: Key)
    requires k in w.workers && j != k && Guarded(j, View(w, j))
    ensures Guarded(j, View(Advance(w, k, f), j))
  {
    CallFrame(w.store, k, w.workers[k], f, j);
    var d := View(Advance(w, k, f), j);
    assert d == View(w, j).(pending := d.pending);
  }

  lemma WorkKeepsGuarded(w: World, k: Key, f: Fault, j: Key)
    requires k in w.workers && CellOK(j, View(w, j)) && Guarded(j, View(w, j))
    ensures Guarded(j, View(Advance(w, k, f), j))
  {
    if j != k {
      OthersKeepGuarded(w, k, f, j);
    } else {
      assert JobOK(k, View(w, k), w.workers[k]);
      hide Guarded, Advance, JobOK, CellOK;
      var x := w.workers[k];
      if Reads(x) {
        ReadKeepsGuarded(w, k, f);
      } else if x.MakeSeed? || x.MoveSeed? || x.KillSeed? {
        SeedKeepsGuarded(w, k, f);
      } else if x.Persist? {
        PersistKeepsGuarded(w, k, f);
      } else {
        GuestKeepsGuarded(w, k, f);
      }
    }
  }

  lemma StepKeepsGuarded(w: World, e: Event, k: Key)
    requires CellOK(k, View(w, k)) && Guarded(k, View(w, k))
    requires e.CreateMachine? ==> e.k != k
    ensures Guarded(k, View(Apply(w, e), k))
  {
    if External(e) {
      hide CellOK, Guarded, Apply;
      OutsideKeepsGuarded(w, e, k);
    } else if e.Work? {
      hide CellOK, Guarded, Advance;
      if e.k in w.workers {
        WorkKeepsGuarded(w, e.k, e.fault, k);
      }
    }
  }

  // The run does not create the machine k (again).
  predicate NeverCreates(es: seq<Event>, k: Key) {
    forall e | e in es :: e.CreateMachine? ==> e.k != k
  }

  lemma {:induction false} RunKeepsGuarded(w: World, es: seq<Event>, k: Key)
    requires Inv(w) && Guarded(k, View(w, k)) && NeverCreates(es, k)
    ensures Guarded(k, View(Run(w, es), k))
  {
    if es != [] {
      var front, e := es[..|es| - 1], es[|es| - 1];
      assert e in es;
      RunKeepsGuarded(w, front, k);
      RunKeepsInv(w, front);
      assert CellOK(k, View(Run(w, front), k));
      StepKeepsGuarded(Run(w, front), e, k);
    }
  }

  // However calls fail, workers crash and others act: once its finalizer was stored, a machine
  // that is gone has left no guest and no seed, now and for the rest of the run.
  lemma NoOrphan(w: World, es: seq<Event>, k: Key)
    requires Reachable(w) && NeverCreates(es, k)
    requires k in w.store.machines && w.store.machines[k].owned.finalizer
    ensures var s := Run(w, es).store;
            k !in s.machines ==>
              && SeedKey(k) !in s.seeds
              && (k in s.guests ==> !Labelled(k, s.guests[k]))
  {
    ReachableInv(w);
    RunKeepsGuarded(w, es, k);
  }

  // ---- What is written once. ----

  lemma PersistKeepsProviderID(w: World, k: Key, f: Fault)
    requires k in w.workers && w.workers[k].Persist? && CellOK(k, View(w, k))
    requires k in w.store.machines && w.store.machines[k].owned.providerID != ""
    ensures var ms := StoreAfter(w, k, f).machines;
            k in ms ==> ms[k].owned.providerID == w.store.machines[k].owned.providerID
  {
    hide StoreAfter, ReplyOf, Mirrors, GuestOK;
    var x := w.workers[k];
    PersistCall(w, k, f);
    PatchedIsMem(k, View(w, k), x.c, x.last, x.verdict);
    assert At(StoreAfter(w, k, f), k).machine == Lookup(StoreAfter(w, k, f).machines, k);
  }

  lemma AdvanceKeepsProviderID(w: World, k: Key, f: Fault, j: Key)
    requires k in w.workers && CellOK(j, View(w, j))
    requires j in w.store.machines && w.store.machines[j].owned.providerID != ""
    ensures var s := Advance(w, k, f).store;
            j in s.machines ==> s.machines[j].owned.providerID == w.store.machines[j].owned.providerID
  {
    var c, x := View(w, j), w.workers[k];
    CallWrites(w, k, f);
    if j != k {
      CallFrame(w.store, k, x, f, j);
      assert At(StoreAfter(w, k, f), j) == At(w.store, j);
      hide Advance, StoreAfter, CellOK;
    } else if x.Persist? {
      PersistKeepsProviderID(w, k, f);
      hide Advance, StoreAfter, CellOK;
    } else {
      hide Advance, StoreAfter, CellOK;
    }
  }

  lemma {:induction false} ProviderIDNeverChanges(w: World, es: seq<Event>, k: Key)
    requires Inv(w) && NeverCreates(es, k)
    requires k in w.store.machines ==> w.store.machines[k].owned.providerID == ProviderID(k)
    ensures k in Run(w, es).store.machines ==> Run(w, es).store.machines[k].owned.providerID == ProviderID(k)
  {
    if es != [] {
      var front, e := es[..|es| - 1], es[|es| - 1];
      assert e in es;
      ProviderIDNeverChanges(w, front, k);
      RunKeepsInv(w, front);
      ProviderIDStep(Run(w, front), e, k);
    }
  }

  lemma ProviderIDStep(w: World, e: Event, k: Key)
    requires Inv(w) && (e.CreateMachine? ==> e.k != k)
    requires k in w.store.machines ==> w.store.machines[k].owned.providerID == ProviderID(k)
    ensures var s := Apply(w, e).store; k in s.machines ==> s.machines[k].owned.providerID == ProviderID(k)
  {
    hide CellOK, Advance;
    assert CellOK(k, View(w, k));
    if e.Work? && e.k in w.workers {
      if k in w.store.machines {
        AdvanceKeepsProviderID(w, e.k, e.fault, k);
      } else {
        AdvanceAddsNoMachine(w, e.k, e.fault);
      }
    } else if External(e) {
      OutsideIsStep(w.store, e, k);
    }
  }

  lemma AdvanceAddsNoMachine(w: World, k: Key, f: Fault)
    requires k in w.workers
    ensures Advance(w, k, f).store.machines.Keys <= w.store.machines.Keys
  {
    CallWrites(w, k, f);
    if w.workers[k].Persist? {
      PersistAddsNoMachine(w.store, k, w.workers[k].c, f);
    }
    hide Advance;
  }

  lemma PersistAddsNoMachine(s: Store, k: Key, x: Context, f: Fault)
    ensures Do(s, PatchMachine(k, x.before.owned, x.mem), f).0.machines.Keys <= s.machines.Keys
  {
  }

  // As long as a guest lives, what was rendered for it stays as it was.
  lemma {:induction false} GuestNeverRewritten(w: World, es: seq<Event>, k: Key)
    requires k in w.store.guests && GuestGone(k) !in es
    ensures var s := Run(w, es).store;
            k in s.guests && s.guests[k].rendered == w.store.guests[k].rendered
  {
    if es != [] {
      var front, e := es[..|es| - 1], es[|es| - 1];
      assert GuestGone(k) !in front;
      GuestNeverRewritten(w, front, k);
      GuestStep(Run(w, front), e, k);
    }
  }

  lemma GuestStep(w: World, e: Event, k: Key)
    requires k in w.store.guests && e != GuestGone(k)
    ensures var s := Apply(w, e).store; k in s.guests && s.guests[k].rendered == w.store.guests[k].rendered
  {
    if e.Work? && e.k in w.workers {
      CallWrites(w, e.k, e.fault);
      if w.workers[e.k].MakeGuest? || w.workers[e.k].KillGuest? {
        GuestCallKeepsRendered(w, e.k, e.fault, k);
      }
      hide Advance;
    }
  }

  lemma GuestCallKeepsRendered(w: World, k: Key, f: Fault, j: Key)
    requires k in w.workers && j in w.store.guests
    requires w.workers[k].MakeGuest? || w.workers[k].KillGuest?
    ensures var s := StoreAfter(w, k, f); j in s.guests && s.guests[j].rendered == w.store.guests[j].rendered
  {
  }
}
