/** Where the failure domain of a provisioned machine comes from, over runs. */
module FailureDomain {
  import opened Prelude
  import opened Names
  import opened MachineObject
  import opened ApiServer
  import opened Controller
  import opened Protocol
  import opened Safety

  // ---- What a run has shown so far. ----

  // The machine object has named this owner.
  ghost predicate NamedOwner(w0: World, es: seq<Event>, k: Key, name: string) {
    exists i | 0 <= i <= |es| :: RefersTo(Run(w0, es[..i]), k, name)
  }

  predicate RefersTo(w: World, k: Key, name: string) {
    k in w.store.machines && w.store.machines[k].owner == Some(name)
  }

  // An owner that the machine object has named has had this failure domain.
  ghost predicate OwnerHad(w0: World, es: seq<Event>, k: Key, domain: string) {
    exists i, name | 0 <= i <= |es| :: NamedOwner(w0, es, k, name) && Has(Run(w0, es[..i]), Key(k.ns, name), domain)
  }

  predicate Has(w: World, owner: Key, domain: string) {
    owner in w.store.env.owners && w.store.env.owners[owner].failureDomain == domain
  }

  lemma NamedStays(w0: World, es: seq<Event>, k: Key, name: string)
    requires es != [] && NamedOwner(w0, es[..|es| - 1], k, name)
    ensures NamedOwner(w0, es, k, name)
  {
    hide Run, RefersTo;
    var front := es[..|es| - 1];
    var i :| 0 <= i <= |front| && RefersTo(Run(w0, front[..i]), k, name);
    assert front[..i] == es[..i];
  }

  lemma HadStays(w0: World, es: seq<Event>, k: Key, domain: string)
    requires es != [] && OwnerHad(w0, es[..|es| - 1], k, domain)
    ensures OwnerHad(w0, es, k, domain)
  {
    hide Run, Has, NamedOwner;
    var front := es[..|es| - 1];
    var i, name :| 0 <= i <= |front| && NamedOwner(w0, front, k, name) && Has(Run(w0, front[..i]), Key(k.ns, name), domain);
    NamedStays(w0, es, k, name);
    assert front[..i] == es[..i];
  }

  // ---- The invariant, over what has been named and had. ----

  predicate StatusKnown(had: iset<string>, o: Owned) {
    o.provisioned == Some(true) ==> o.failureDomain in had
  }

  predicate ContextKnown(had: iset<string>, c: Context) {
    c.owner.failureDomain in had && StatusKnown(had, c.before.owned) && StatusKnown(had, c.mem)
  }

  predicate ObjectKnown(named: iset<string>, had: iset<string>, m: Machine) {
    (m.owner.Some? ==> m.owner.value in named) && StatusKnown(had, m.owned)
  }

  predicate WorkerKnown(named: iset<string>, had: iset<string>, x: Job) {
    match x
    case ReadMachine => true
    case ReadOwner(m) => ObjectKnown(named, had, m)
    case ReadCluster(m, o) => StatusKnown(had, m.owned) && o.failureDomain in had
    case _ => ContextKnown(had, x.c)
  }

  predicate CellKnown(named: iset<string>, had: iset<string>, c: Cell) {
    && (c.machine.Some? ==> ObjectKnown(named, had, c.machine.value))
    && (c.worker.Some? ==> WorkerKnown(named, had, c.worker.value))
  }

  lemma KnownGrows(named: iset<string>, had: iset<string>, named': iset<string>, had': iset<string>, c: Cell)
    requires CellKnown(named, had, c) && named <= named' && had <= had'
    ensures CellKnown(named', had', c)
  {
  }

  // A reply tells of objects that are there.
  predicate ReplyKnown(named: iset<string>, had: iset<string>, x: Job, r: Reply) {
    && (x.ReadMachine? && r.MachineIs? ==> ObjectKnown(named, had, r.machine))
    && (x.ReadOwner? && r.OwnerIs? ==> r.owner.failureDomain in had)
  }

  lemma ResumeKnown(named: iset<string>, had: iset<string>, k: Key, x: Job, r: Reply)
    requires WorkerKnown(named, had, x) && ReplyKnown(named, had, x, r)
    ensures var p := Resume(k, x, r); p.Continue? ==> WorkerKnown(named, had, p.job)
  {
    hide ExposureOf, Migrated, DesiredSeed;
  }

  lemma OwnerReplyKnown(w: World, k: Key, f: Fault, named: iset<string>, had: iset<string>)
    requires k in w.workers && CellKnown(named, had, View(w, k))
    requires forall name, domain | name in named && Has(w, Key(k.ns, name), domain) :: domain in had
    ensures ReplyKnown(named, had, w.workers[k], ReplyOf(w, k, f))
  {
    var x := w.workers[k];
    if x.ReadOwner? {
      var owner := Key(k.ns, x.ksm.owner.value);
      if owner in w.store.env.owners {
        assert Has(w, owner, w.store.env.owners[owner].failureDomain);
      }
    }
    assert k in w.store.machines ==> View(w, k).machine == Some(w.store.machines[k]);
  }

  lemma PersistKnown(w: World, k: Key, f: Fault, named: iset<string>, had: iset<string>)
    requires k in w.workers && w.workers[k].Persist? && CellOK(k, View(w, k)) && CellKnown(named, had, View(w, k))
    ensures var m := At(StoreAfter(w, k, f), k).machine; m.Some? ==> ObjectKnown(named, had, m.value)
  {
    hide StoreAfter, ReplyOf, Mirrors, GuestOK;
    var x := w.workers[k];
    PersistCall(w, k, f);
    if k in w.store.machines {
      PatchedIsMem(k, View(w, k), x.c, x.last, x.verdict);
    }
  }

  lemma WorkKeepsKnown(w: World, k: Key, f: Fault, named: iset<string>, had: iset<string>)
    requires k in w.workers && CellOK(k, View(w, k)) && CellKnown(named, had, View(w, k))
    requires forall name, domain | name in named && Has(w, Key(k.ns, name), domain) :: domain in had
    ensures CellKnown(named, had, View(Advance(w, k, f), k))
  {
    hide Advance, StoreAfter, ReplyOf, Resume, ObjectKnown, WorkerKnown, CellOK;
    OwnerReplyKnown(w, k, f, named, had);
    ResumeKnown(named, had, k, w.workers[k], ReplyOf(w, k, f));
    AdvanceView(w, k, f);
    CallWrites(w, k, f);
    if w.workers[k].Persist? {
      PersistKnown(w, k, f, named, had);
    }
  }

  // A step of anyone else leaves the status; a new owner reference is one that the object names.
  lemma OutsideKeepsKnown(w: World, e: Event, k: Key, named: iset<string>, had: iset<string>)
    requires External(e) && CellKnown(named, had, View(w, k))
    requires forall name | RefersTo(Apply(w, e), k, name) :: name in named
    ensures CellKnown(named, had, View(Apply(w, e), k))
  {
    hide WorkerKnown;
    OutsideIsStep(w.store, e, k);
    var v := Apply(w, e);
    if k in v.store.machines && v.store.machines[k].owner.Some? {
      assert RefersTo(v, k, v.store.machines[k].owner.value);
    }
  }

  lemma OthersKeepKnown(w: World, j: Key, f: Fault, k: Key, named: iset<string>, had: iset<string>)
    requires j in w.workers && j != k && CellKnown(named, had, View(w, k))
    ensures CellKnown(named, had, View(Advance(w, j, f), k))
  {
    hide Advance, ObjectKnown, WorkerKnown;
    OthersView(w, j, f, k);
  }

  lemma OthersView(w: World, j: Key, f: Fault, k: Key)
    requires j in w.workers && j != k
    ensures View(Advance(w, j, f), k) == View(w, k).(pending := View(Advance(w, j, f), k).pending)
  {
    CallFrame(w.store, j, w.workers[j], f, k);
  }

  lemma StepKeepsKnown(w: World, e: Event, k: Key, named: iset<string>, had: iset<string>)
    requires CellOK(k, View(w, k)) && CellKnown(named, had, View(w, k))
    requires forall name | RefersTo(Apply(w, e), k, name) :: name in named
    requires forall name, domain | name in named && Has(w, Key(k.ns, name), domain) :: domain in had
    ensures CellKnown(named, had, View(Apply(w, e), k))
  {
    if External(e) {
      hide CellOK, CellKnown, Apply;
      OutsideKeepsKnown(w, e, k, named, had);
    } else if e.Work? {
      hide CellOK, CellKnown, Advance;
      if e.k == k && k in w.workers {
        WorkKeepsKnown(w, k, e.fault, named, had);
      } else if e.k in w.workers {
        OthersKeepKnown(w, e.k, e.fault, k, named, had);
      }
    } else {
      hide CellOK, ObjectKnown;
    }
  }

  // ---- Over runs. ----

  ghost function AllNamed(w0: World, es: seq<Event>, k: Key): iset<string> {
    iset name | NamedOwner(w0, es, k, name)
  }

  ghost function AllHad(w0: World, es: seq<Event>, k: Key): iset<string> {
    iset domain | OwnerHad(w0, es, k, domain)
  }

  lemma NowNamed(w0: World, es: seq<Event>, k: Key, name: string)
    requires RefersTo(Run(w0, es), k, name)
    ensures name in AllNamed(w0, es, k)
  {
    hide Run, RefersTo;
    assert es[..|es|] == es;
  }

  lemma NowHad(w0: World, es: seq<Event>, i: nat, k: Key, name: string, domain: string)
    requires i <= |es| && NamedOwner(w0, es, k, name) && Has(Run(w0, es[..i]), Key(k.ns, name), domain)
    ensures domain in AllHad(w0, es, k)
  {
    hide Run, Has, NamedOwner;
  }

  lemma ShownGrows(w0: World, es: seq<Event>, k: Key)
    requires es != []
    ensures AllNamed(w0, es[..|es| - 1], k) <= AllNamed(w0, es, k)
    ensures AllHad(w0, es[..|es| - 1], k) <= AllHad(w0, es, k)
  {
    hide NamedOwner, OwnerHad;
    forall name | NamedOwner(w0, es[..|es| - 1], k, name)
      ensures NamedOwner(w0, es, k, name)
    {
      NamedStays(w0, es, k, name);
    }
    forall domain | OwnerHad(w0, es[..|es| - 1], k, domain)
      ensures OwnerHad(w0, es, k, domain)
    {
      HadStays(w0, es, k, domain);
    }
  }

  lemma {:induction false} RunKnows(w0: World, es: seq<Event>, k: Key)
    requires Initial(w0)
    ensures CellKnown(AllNamed(w0, es, k), AllHad(w0, es, k), View(Run(w0, es), k))
  {
    hide Apply, CellKnown, AllNamed, AllHad, RefersTo, Has, CellOK, Inv;
    if es == [] {
      StartsKnown(w0, k);
    } else {
      var front, e := es[..|es| - 1], es[|es| - 1];
      var w, named, had := Run(w0, front), AllNamed(w0, es, k), AllHad(w0, es, k);
      RunKnows(w0, front, k);
      ShownGrows(w0, es, k);
      KnownGrows(AllNamed(w0, front, k), AllHad(w0, front, k), named, had, View(w, k));
      InitialInv(w0);
      RunKeepsInv(w0, front);
      InvAt(w, k);
      forall name | RefersTo(Apply(w, e), k, name)
        ensures name in named
      {
        NowNamed(w0, es, k, name);
      }
      forall name, domain | name in named && Has(w, Key(k.ns, name), domain)
        ensures domain in had
      {
        NamedMeans(w0, es, k, name);
        assert es[..|front|] == front;
        NowHad(w0, es, |front|, k, name, domain);
      }
      StepKeepsKnown(w, e, k, named, had);
    }
  }

  lemma NamedMeans(w0: World, es: seq<Event>, k: Key, name: string)
    requires name in AllNamed(w0, es, k)
    ensures NamedOwner(w0, es, k, name)
  {
  }

  lemma StartsKnown(w0: World, k: Key)
    requires Initial(w0)
    ensures Run(w0, []) == w0
    ensures CellKnown(AllNamed(w0, [], k), AllHad(w0, [], k), View(w0, k))
  {
    if k in w0.store.machines && w0.store.machines[k].owner.Some? {
      assert RefersTo(w0, k, w0.store.machines[k].owner.value);
      NowNamed(w0, [], k, w0.store.machines[k].owner.value);
    }
    hide AllNamed, AllHad;
  }

  // On every run from the start, a provisioned machine's failure domain is one that an owner which
  // the machine object has named has had.
  lemma ProvisionedDomainIsAnOwners(w0: World, es: seq<Event>, k: Key)
    requires Initial(w0)
    requires k in Run(w0, es).store.machines && Run(w0, es).store.machines[k].owned.provisioned == Some(true)
    ensures OwnerHad(w0, es, k, Run(w0, es).store.machines[k].owned.failureDomain)
  {
    hide OwnerHad, Run, NamedOwner;
    RunKnows(w0, es, k);
  }
}
