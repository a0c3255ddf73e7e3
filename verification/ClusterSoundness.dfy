/** Endpoint and status of a cluster over whole runs, also when its name is used again while a
    reconcile of the former object is in flight. */
module ClusterSoundness {
  import opened Prelude
  import opened Names
  import opened ClusterConfig
  import opened EndpointService
  import opened ClusterController

  // ---- A host is never given up. ----

  // What a reconcile adopts has a host.
  predicate AdoptsHost(x: Worker) {
    x.Leaving? && x.mem.endpoint != x.before.owned.endpoint ==> HasHost(x.mem.endpoint)
  }

  ghost predicate AdoptsHostAt(w: World, k: Key) {
    k in w.workers ==> AdoptsHost(w.workers[k])
  }

  lemma SettledAdopts(m: Object, svc: Option<Service>)
    ensures Settled(m, svc).endpoint != m.owned.endpoint ==> HasHost(Settled(m, svc).endpoint)
    ensures ModeOf(m.config) != ModeService ==> Settled(m, svc).endpoint == m.owned.endpoint
  {
    if svc.Some? {
      AddressNotEmpty(svc.value);
    }
  }

  lemma ComputeAdopts(w: World, k: Key, o: Outcome)
    requires k in w.workers && w.workers[k].Looking?
    ensures var v := Computed(w, k, o);
            && v.objects == w.objects
            && v.workers == w.workers[k := v.workers[k]]
            && v.workers[k].Leaving? && v.workers[k].before == w.workers[k].before
            && AdoptsHost(v.workers[k])
  {
    var x := w.workers[k];
    SettledAdopts(x.before, None);
    SettledAdopts(x.before, Ensured(w.services, k, x.before.config, x.cluster, o).1);
    hide Settled, Ensured;
  }

  lemma StepAdopts(w: World, e: Event, k: Key)
    requires AdoptsHostAt(w, k)
    ensures AdoptsHostAt(Apply(w, e), k)
    ensures k in w.objects && HasHost(w.objects[k].owned.endpoint) && k in Apply(w, e).objects ==>
              HasHost(Apply(w, e).objects[k].owned.endpoint)
  {
    if e.Compute? && e.k in w.workers && w.workers[e.k].Looking? {
      ComputeAdopts(w, e.k, e.outcome);
    }
    hide Computed;
  }

  lemma {:induction false} RunAdopts(w: World, es: seq<Event>, k: Key)
    requires AdoptsHostAt(w, k)
    ensures AdoptsHostAt(Run(w, es), k)
  {
    hide Apply, AdoptsHostAt;
    if es != [] {
      RunAdopts(w, es[..|es| - 1], k);
      StepAdopts(Run(w, es[..|es| - 1]), es[|es| - 1], k);
    }
  }

  predicate Creates(e: Event, k: Key) {
    e.CreateObject? && e.k == k
  }

  // Once an endpoint with a host is set, at whatever point of a run, it stays set as long as the
  // object exists.
  lemma {:induction false} EndpointNeverCleared(w: World, ds: seq<Event>, es: seq<Event>, k: Key)
    requires Initial(w) && k in Run(w, ds).objects && HasHost(Run(w, ds).objects[k].owned.endpoint)
    requires forall e | e in es :: !Creates(e, k)
    ensures k in Run(w, ds + es).objects ==> HasHost(Run(w, ds + es).objects[k].owned.endpoint)
  {
    hide Apply, HasHost, AdoptsHostAt, Creates;
    if es == [] {
      assert ds + es == ds;
    } else {
      var front, e := es[..|es| - 1], es[|es| - 1];
      assert (ds + es)[..|ds + es| - 1] == ds + front && (ds + es)[|ds + es| - 1] == e;
      assert e in es && forall d | d in front :: d in es;
      EndpointNeverCleared(w, ds, front, k);
      StartsAdopting(w, k);
      RunAdopts(w, ds + front, k);
      StepAdopts(Run(w, ds + front), e, k);
      NotBack(Run(w, ds + front), e, k);
    }
  }

  lemma StartsAdopting(w: World, k: Key)
    requires Initial(w)
    ensures AdoptsHostAt(w, k)
  {
  }

  lemma NotBack(w: World, e: Event, k: Key)
    requires !Creates(e, k)
    ensures k !in w.objects ==> k !in Apply(w, e).objects
  {
    if e.Compute? && e.k in w.workers && w.workers[e.k].Looking? {
      ComputeAdopts(w, e.k, e.outcome);
    }
    hide Computed;
  }

  // ---- Status and endpoint of one object. ----

  // Provisioned and Ready say the same, and a provisioned cluster has an endpoint with a host.
  predicate OwnedOK(o: Owned) {
    && o.provisioned.Some? == o.ready.Some?
    && (o.provisioned.Some? ==> o.provisioned.value == o.ready.value.status)
    && (o.provisioned == Some(true) ==> HasHost(o.endpoint))
  }

  predicate WorkerSound(x: Worker) {
    OwnedOK(x.before.owned) && AdoptsHost(x) && (x.Leaving? ==> OwnedOK(x.mem))
  }

  // The stored object is the one the reconcile read, but for what users may do to it.
  predicate Continues(m: Object, before: Object) {
    && m.owned.provisioned == before.owned.provisioned
    && m.owned.ready == before.owned.ready
    && (HasHost(before.owned.endpoint) ==> HasHost(m.owned.endpoint))
  }

  ghost predicate Sound(w: World, k: Key) {
    && (k in w.objects ==> OwnedOK(w.objects[k].owned))
    && (k in w.workers ==> WorkerSound(w.workers[k]))
  }

  ghost predicate Continuous(w: World, k: Key) {
    k in w.objects && k in w.workers ==> Continues(w.objects[k], w.workers[k].before)
  }

  // The name k goes to a new object while a reconcile of the former one is in flight.
  predicate Reuses(w: World, e: Event, k: Key) {
    Creates(e, k) && k !in w.objects && k in w.workers
  }

  ghost predicate NeverReused(w: World, es: seq<Event>, k: Key) {
    forall i | 0 <= i < |es| :: !Reuses(Run(w, es[..i]), es[i], k)
  }

  lemma SettledOK(m: Object, svc: Option<Service>)
    requires OwnedOK(m.owned)
    ensures OwnedOK(Settled(m, svc))
  {
    if svc.Some? {
      AddressNotEmpty(svc.value);
    }
  }

  lemma ComputeSound(w: World, k: Key, o: Outcome)
    requires k in w.workers && w.workers[k].Looking? && WorkerSound(w.workers[k])
    ensures WorkerSound(Computed(w, k, o).workers[k])
  {
    var x := w.workers[k];
    ComputeAdopts(w, k, o);
    SettledOK(x.before, None);
    SettledOK(x.before, Ensured(w.services, k, x.before.config, x.cluster, o).1);
    hide Settled, Ensured;
  }

  // Nothing but a patch can make the object unsound.
  lemma StepSound(w: World, e: Event, k: Key)
    requires Sound(w, k) && (e.Patch? ==> e.k != k)
    ensures Sound(Apply(w, e), k)
  {
    if e.Compute? && e.k in w.workers && w.workers[e.k].Looking? {
      ComputeAdopts(w, e.k, e.outcome);
      if e.k == k {
        ComputeSound(w, k, e.outcome);
      }
    }
    hide Computed;
  }

  lemma StepContinues(w: World, e: Event, k: Key)
    requires Continuous(w, k) && !Reuses(w, e, k) && (e.Patch? ==> e.k != k)
    ensures Continuous(Apply(w, e), k)
  {
    if e.Compute? && e.k in w.workers && w.workers[e.k].Looking? {
      ComputeAdopts(w, e.k, e.outcome);
    }
    hide Computed;
  }

  lemma PatchSound(w: World, k: Key, delivered: bool)
    requires Sound(w, k) && Continuous(w, k)
    ensures var v := Apply(w, Patch(k, delivered)); Sound(v, k) && Continuous(v, k)
  {
  }

  lemma {:induction false} RunSound(w: World, es: seq<Event>, k: Key)
    requires Sound(w, k) && Continuous(w, k) && NeverReused(w, es, k)
    ensures Sound(Run(w, es), k) && Continuous(Run(w, es), k)
  {
    hide Apply, Sound, Continuous, Reuses;
    if es != [] {
      var front, e := es[..|es| - 1], es[|es| - 1];
      NotReusedFront(w, es, k);
      RunSound(w, front, k);
      if e.Patch? && e.k == k {
        PatchSound(Run(w, front), k, e.delivered);
      } else {
        StepSound(Run(w, front), e, k);
        StepContinues(Run(w, front), e, k);
      }
    }
  }

  lemma NotReusedFront(w: World, es: seq<Event>, k: Key)
    requires es != [] && NeverReused(w, es, k)
    ensures NeverReused(w, es[..|es| - 1], k) && !Reuses(Run(w, es[..|es| - 1]), es[|es| - 1], k)
  {
    hide Run, Reuses;
    var front := es[..|es| - 1];
    forall i | 0 <= i < |front|
      ensures !Reuses(Run(w, front[..i]), front[i], k)
    {
      assert front[..i] == es[..i] && front[i] == es[i];
    }
  }

  // The InfraCluster contract on every run that gives the name to no new object while a reconcile
  // of the former one is in flight: a provisioned cluster has an endpoint with a host, and
  // Provisioned and Ready say the same.
  lemma ProvisionedHasEndpoint(w: World, es: seq<Event>, k: Key)
    requires Initial(w) && NeverReused(w, es, k) && k in Run(w, es).objects
    ensures var o := Run(w, es).objects[k].owned;
            && (o.provisioned == Some(true) ==> HasHost(o.endpoint))
            && (o.provisioned == Some(true) <==> o.ready.Some? && o.ready.value.status)
            && (o.provisioned == Some(false) <==> o.ready.Some? && !o.ready.value.status)
  {
    RunSound(w, es, k);
  }

  // ---- Where it first breaks. ----

  // A patch that reaches an object and leaves it there.
  predicate Lands(w: World, e: Event, k: Key) {
    && e == Patch(k, true) && k in w.workers && w.workers[k].Leaving? && k in w.objects
    && var m, x := w.objects[k], w.workers[k];
       && !(m.deleting && !m.owned.finalizer && x.mem.finalizer && !x.before.owned.finalizer)
       && (m.deleting ==> m.otherFinalizers || PatchedOwned(x.before.owned, x.mem, m.owned).finalizer)
  }

  // The reconcile turns Provisioned on for the sake of a host that it read, and that the object
  // of that name no longer has.
  predicate LosesHost(m: Owned, before: Owned, mem: Owned) {
    && mem.provisioned == Some(true) && before.provisioned != Some(true)
    && mem.endpoint == before.endpoint && !HasHost(m.endpoint)
  }

  // The reconcile changes the reason of Ready and finds nothing to change in Provisioned, and the
  // object of that name has another Provisioned.
  predicate LosesAgreement(m: Owned, before: Owned, mem: Owned) {
    mem.ready != before.ready && mem.provisioned == before.provisioned && m.provisioned != mem.provisioned
  }

  lemma PatchedSoundExactlyWhen(m: Owned, x: Worker)
    requires OwnedOK(m) && x.Leaving? && WorkerSound(x)
    ensures OwnedOK(PatchedOwned(x.before.owned, x.mem, m))
            <==> !LosesHost(m, x.before.owned, x.mem) && !LosesAgreement(m, x.before.owned, x.mem)
  {
  }

  // As long as the object of k has been sound on a run, whatever happened to the name, the next
  // step makes it unsound exactly when it is a patch of that kind.
  lemma BreaksExactlyWhen(w: World, es: seq<Event>, e: Event, k: Key)
    requires Initial(w) && forall i | 0 <= i <= |es| :: SoundObject(Run(w, es[..i]), k)
    ensures var v := Run(w, es);
            !SoundObject(Apply(v, e), k)
            <==> && Lands(v, e, k)
                 && var m, x := v.objects[k].owned, v.workers[k];
                    LosesHost(m, x.before.owned, x.mem) || LosesAgreement(m, x.before.owned, x.mem)
  {
    hide Run, Apply, LosesHost, LosesAgreement, OwnedOK;
    var v := Run(w, es);
    assert es[..|es|] == es;
    SoundSoFar(w, es, k);
    if e.Patch? && e.k == k {
      PatchBreaks(v, e, k);
    } else {
      StepSound(v, e, k);
    }
  }

  ghost predicate SoundObject(w: World, k: Key) {
    k in w.objects ==> OwnedOK(w.objects[k].owned)
  }

  lemma PatchBreaks(v: World, e: Event, k: Key)
    requires Sound(v, k) && e.Patch? && e.k == k
    ensures !SoundObject(Apply(v, e), k)
            <==> && Lands(v, e, k)
                 && var m, x := v.objects[k].owned, v.workers[k];
                    LosesHost(m, x.before.owned, x.mem) || LosesAgreement(m, x.before.owned, x.mem)
  {
    hide LosesHost, LosesAgreement, OwnedOK;
    if Lands(v, e, k) {
      PatchedSoundExactlyWhen(v.objects[k].owned, v.workers[k]);
    }
  }

  lemma {:induction false} SoundSoFar(w: World, es: seq<Event>, k: Key)
    requires Initial(w) && forall i | 0 <= i <= |es| :: SoundObject(Run(w, es[..i]), k)
    ensures Sound(Run(w, es), k)
  {
    hide Apply, OwnedOK;
    assert es[..|es|] == es;
    if es == [] {
      StartsSound(w, k);
    } else {
      var front, e := es[..|es| - 1], es[|es| - 1];
      forall i | 0 <= i <= |front|
        ensures SoundObject(Run(w, front[..i]), k)
      {
        assert front[..i] == es[..i];
      }
      SoundSoFar(w, front, k);
      if e.Patch? && e.k == k {
        PatchEndsWorker(Run(w, front), e);
      } else {
        StepSound(Run(w, front), e, k);
      }
    }
  }

  lemma StartsSound(w: World, k: Key)
    requires Initial(w)
    ensures Sound(w, k)
  {
  }

  lemma PatchEndsWorker(w: World, e: Event)
    requires e.Patch?
    ensures e.k in Apply(w, e).workers ==> e.k in w.workers && Apply(w, e).workers[e.k] == w.workers[e.k]
  {
  }

  // It does break: an operator replaces a cluster with an endpoint by one without, in the middle
  // of the first reconcile.
  lemma ProvisionedWithoutHostIsReachable()
    ensures exists w, es, k :: Initial(w) && k in Run(w, es).objects
                            && Run(w, es).objects[k].owned.provisioned == Some(true)
                            && !HasHost(Run(w, es).objects[k].owned.endpoint)
  {
    hide Ensured, Desired, InSync, Admitted, AddressOf, Run;
    var k := Key("default", "demo");
    var owned := Owned(false, Some(Endpoint("10.0.0.1", 6443)), None, None);
    var m := Object(None, false, false, owned);
    var w := World(map[k := m], map[], map[]);
    var mem := MarkedProvisioned(owned.(finalizer := true));
    var w1 := Apply(w, Look(k, "demo"));
    assert w1 == World(map[k := m], map[], map[k := Looking(m, "demo")]);
    var w2 := Apply(w1, Compute(k, Refused));
    assert w2 == World(map[k := m], map[], map[k := Leaving(m, mem)]);
    var w3 := Apply(w2, DeleteObject(k));
    assert w3 == World(map[], map[], map[k := Leaving(m, mem)]);
    var w4 := Apply(w3, CreateObject(k, None, None));
    var w5 := Apply(w4, Patch(k, true));
    assert w5.objects[k].owned == Owned(true, None, Some(true), Some(Ready(true, Provisioned)));
    var es := [Look(k, "demo"), Compute(k, Refused), DeleteObject(k), CreateObject(k, None, None), Patch(k, true)];
    RunFive(w, es);
  }

  lemma RunFive(w: World, es: seq<Event>)
    requires |es| == 5
    ensures Run(w, es) == Apply(Apply(Apply(Apply(Apply(w, es[0]), es[1]), es[2]), es[3]), es[4])
  {
    hide Apply;
    assert es[..4][..3] == es[..3] && es[..3][..2] == es[..2] && es[..2][..1] == es[..1] && es[..1][..0] == [];
    assert Run(w, es[..1]) == Apply(w, es[0]);
    assert Run(w, es[..2]) == Apply(Run(w, es[..1]), es[1]);
    assert Run(w, es[..3]) == Apply(Run(w, es[..2]), es[2]);
    assert Run(w, es[..4]) == Apply(Run(w, es[..3]), es[3]);
  }
}
