/** Non-interference: what happens to a machine and to everything made for it does not
    depend on the reconciles of other machines. */
module Isolation {
  import opened Prelude
  import opened Names
  import opened MachineObject
  import opened ApiServer
  import opened Controller
  import opened Protocol
  import opened Safety

  // Two worlds that look the same from machine k: its cell, its Nodes, and what the controller only reads.
  ghost predicate Same(k: Key, v: World, w: World) {
    && View(v, k) == View(w, k)
    && v.store.env == w.store.env
    && forall cluster :: Lookup(v.store.nodes, NodeKey(k.ns, cluster, k.name)) == Lookup(w.store.nodes, NodeKey(k.ns, cluster, k.name))
  }

  // A step of another machine's reconcile.
  predicate Foreign(e: Event, k: Key) {
    (e.Work? || e.Start?) && e.k != k
  }

  predicate OwnKeys(s: Store) {
    forall k | k in s.guests :: OwnKey(k, Some(s.guests[k]))
  }

  lemma InvOwnKeys(w: World)
    requires Inv(w)
    ensures OwnKeys(w.store)
  {
    forall k | k in w.store.guests
      ensures OwnKey(k, Some(w.store.guests[k]))
    {
      assert CellOK(k, View(w, k));
    }
  }

  // When every guest's label names its own key, a key is touched through its own objects only.
  lemma TouchedIsLocal(s: Store, s': Store, k: Key)
    requires OwnKeys(s) && OwnKeys(s')
    ensures k in Touched(s, s') <==>
            || Lookup(s.machines, k) != Lookup(s'.machines, k)
            || (Lookup(s.guests, k) != Lookup(s'.guests, k) && GuestEvent(s, s', k) == Some(k))
  {
    if Lookup(s.guests, k) != Lookup(s'.guests, k) && GuestEvent(s, s', k) == Some(k) {
      TouchedGuest(s, s', k);
    }
  }

  // Every write of the reconcile of k is to the machine, guest or seed of k, or to its Node in
  // the workload cluster that its label names.
  lemma WritesStayHome(w: World, k: Key, f: Fault, q: Key, n: NodeKey)
    requires k in w.workers
    ensures var s, s' := w.store, Advance(w, k, f).store;
            && s'.env == s.env
            && (q != k ==> Lookup(s'.machines, q) == Lookup(s.machines, q) && Lookup(s'.guests, q) == Lookup(s.guests, q))
            && (q != SeedKey(k) ==> Lookup(s'.seeds, q) == Lookup(s.seeds, q))
            && (Lookup(s'.nodes, n) != Lookup(s.nodes, n) ==>
                  w.workers[k].WriteNode? && n == NodeKey(k.ns, w.workers[k].c.before.clusterLabel, k.name))
  {
    hide Advance, Exec, Resume, CallOf, NextCall, Lookup;
    CallWrites(w, k, f);
    NextCallIsOwn(k, w.workers[k]);
    ExecFrame(w.store, NextCall(k, w.workers[k]), k, q, n);
    NodePatchIsOwn(k, w.workers[k]);
  }

  lemma NodePatchIsOwn(k: Key, x: Job)
    ensures NextCall(k, x).PatchNode? ==>
              x.WriteNode? && NextCall(k, x).n == NodeKey(k.ns, x.c.before.clusterLabel, k.name)
  {
  }

  lemma ExecFrame(s: Store, call: Call, k: Key, q: Key, n: NodeKey)
    requires CallOf(k, call)
    ensures var s' := Exec(s, call).0;
            && (q != k ==> Lookup(s'.machines, q) == Lookup(s.machines, q) && Lookup(s'.guests, q) == Lookup(s.guests, q))
            && (q != SeedKey(k) ==> Lookup(s'.seeds, q) == Lookup(s.seeds, q))
            && (Lookup(s'.nodes, n) != Lookup(s.nodes, n) ==> call.PatchNode? && call.n == n)
  {
    hide Patched;
  }

  // ---- Steps of others are invisible. ----

  lemma ForeignCallSpares(w: World, j: Key, f: Fault, k: Key)
    requires j in w.workers && j != k
    ensures At(StoreAfter(w, j, f), k) == At(w.store, k)
    ensures forall cluster :: Lookup(StoreAfter(w, j, f).nodes, NodeKey(k.ns, cluster, k.name))
                           == Lookup(w.store.nodes, NodeKey(k.ns, cluster, k.name))
  {
    CallFrame(w.store, j, w.workers[j], f, k);
    CallWrites(w, j, f);
  }

  lemma ForeignStep(w: World, e: Event, k: Key)
    requires Inv(w) && Foreign(e, k)
    ensures Same(k, Apply(w, e), w)
  {
    if e.Work? && e.k in w.workers {
      ForeignCallSpares(w, e.k, e.fault, k);
      CallWrites(w, e.k, e.fault);
      StepKeepsInv(w, e);
      InvOwnKeys(w);
      InvOwnKeys(Apply(w, e));
      TouchedIsLocal(w.store, StoreAfter(w, e.k, e.fault), k);
      hide Inv, StoreAfter, CellOK;
    }
  }

  // ---- The machine's own steps, and everyone else's, do the same in both worlds. ----

  predicate AgreeAt(k: Key, s: Store, t: Store) {
    && At(s, k) == At(t, k)
    && s.env == t.env
  }

  ghost predicate AgreeNodes(k: Key, s: Store, t: Store) {
    forall cluster :: Lookup(s.nodes, NodeKey(k.ns, cluster, k.name)) == Lookup(t.nodes, NodeKey(k.ns, cluster, k.name))
  }

  predicate CallOf(k: Key, call: Call) {
    match call
    case GetMachine(j) => j == k
    case PatchMachine(j, _, _) => j == k
    case GetGuest(j) => j == k
    case CreateGuest(j, _) => j == k
    case DeleteGuest(j) => j == k
    case GetSeed(j) => j == SeedKey(k)
    case CreateSeed(j, _) => j == SeedKey(k)
    case UpdateSeed(j, _, _) => j == SeedKey(k)
    case DeleteSeed(j) => j == SeedKey(k)
    case GetNode(n) => n.ns == k.ns && n.name == k.name
    case PatchNode(n, _) => n.ns == k.ns && n.name == k.name
    case _ => true
  }

  lemma NextCallIsOwn(k: Key, x: Job)
    ensures CallOf(k, NextCall(k, x))
  {
  }

  lemma NodeExecAgrees(k: Key, s: Store, t: Store, call: Call)
    requires AgreeAt(k, s, t) && AgreeNodes(k, s, t) && CallOf(k, call)
    requires call.GetNode? || call.PatchNode?
    ensures Exec(s, call).1 == Exec(t, call).1
    ensures AgreeAt(k, Exec(s, call).0, Exec(t, call).0)
    ensures AgreeNodes(k, Exec(s, call).0, Exec(t, call).0)
  {
    var n := NodeKey(k.ns, call.n.cluster, k.name);
    assert Lookup(s.nodes, n) == Lookup(t.nodes, n);
    NodeExec(s, call);
    NodeExec(t, call);
    hide Exec, At, CallOf;
    assert call.n == n by { OwnNode(k, call); }
  }

  lemma OwnNode(k: Key, call: Call)
    requires CallOf(k, call) && (call.GetNode? || call.PatchNode?)
    ensures call.n == NodeKey(k.ns, call.n.cluster, k.name)
  {
  }

  // A call on a Node depends on that Node and changes no other.
  lemma NodeExec(s: Store, call: Call)
    requires call.GetNode? || call.PatchNode?
    ensures var id := Lookup(s.nodes, call.n);
            var written := call.PatchNode? && id.Some?;
            && Exec(s, call).0 == (if written then s.(nodes := s.nodes[call.n := call.id]) else s)
            && Exec(s, call).1 == (if id.None? then NotFound else if written then Done else NodeIs(id.value))
  {
  }

  lemma ObjectExecAgrees(k: Key, s: Store, t: Store, call: Call)
    requires AgreeAt(k, s, t) && CallOf(k, call)
    requires !call.GetNode? && !call.PatchNode?
    ensures Exec(s, call).1 == Exec(t, call).1
    ensures AgreeAt(k, Exec(s, call).0, Exec(t, call).0)
  {
    if call.PatchMachine? {
      PatchAgrees(k, s, t, call);
    } else {
      OtherExecAgrees(k, s, t, call);
    }
    hide Exec, AgreeAt, CallOf;
  }

  lemma PatchAgrees(k: Key, s: Store, t: Store, call: Call)
    requires AgreeAt(k, s, t) && CallOf(k, call) && call.PatchMachine?
    ensures Exec(s, call).1 == Exec(t, call).1
    ensures AgreeAt(k, Exec(s, call).0, Exec(t, call).0)
  {
  }

  lemma OtherExecAgrees(k: Key, s: Store, t: Store, call: Call)
    requires AgreeAt(k, s, t) && CallOf(k, call)
    requires !call.GetNode? && !call.PatchNode? && !call.PatchMachine?
    ensures Exec(s, call).1 == Exec(t, call).1
    ensures AgreeAt(k, Exec(s, call).0, Exec(t, call).0)
  {
    hide AgreeAt, CallOf, Exec;
    if call.CreateGuest? || call.DeleteGuest? {
      GuestExecAgrees(k, s, t, call);
    } else if call.CreateSeed? || call.UpdateSeed? || call.DeleteSeed? {
      SeedExecAgrees(k, s, t, call);
    } else {
      ReadAgrees(k, s, t, call);
    }
  }

  lemma GuestExecAgrees(k: Key, s: Store, t: Store, call: Call)
    requires AgreeAt(k, s, t) && CallOf(k, call) && (call.CreateGuest? || call.DeleteGuest?)
    ensures Exec(s, call).1 == Exec(t, call).1
    ensures AgreeAt(k, Exec(s, call).0, Exec(t, call).0)
  {
    assert Lookup(s.guests, k) == Lookup(t.guests, k);
  }

  lemma SeedExecAgrees(k: Key, s: Store, t: Store, call: Call)
    requires AgreeAt(k, s, t) && CallOf(k, call) && (call.CreateSeed? || call.UpdateSeed? || call.DeleteSeed?)
    ensures Exec(s, call).1 == Exec(t, call).1
    ensures AgreeAt(k, Exec(s, call).0, Exec(t, call).0)
  {
    assert Lookup(s.seeds, SeedKey(k)) == Lookup(t.seeds, SeedKey(k));
  }

  predicate ReadsObject(call: Call) {
    || call.GetMachine? || call.GetOwner? || call.GetCluster? || call.GetInfra?
    || call.GetSecret? || call.GetSeed? || call.GetGuest?
  }

  lemma ReadAgrees(k: Key, s: Store, t: Store, call: Call)
    requires AgreeAt(k, s, t) && CallOf(k, call) && ReadsObject(call)
    ensures Exec(s, call).1 == Exec(t, call).1
    ensures AgreeAt(k, Exec(s, call).0, Exec(t, call).0)
  {
    assert Lookup(s.machines, k) == Lookup(t.machines, k) && Lookup(s.guests, k) == Lookup(t.guests, k);
    assert Lookup(s.seeds, SeedKey(k)) == Lookup(t.seeds, SeedKey(k));
  }

  lemma ExecAgrees(k: Key, s: Store, t: Store, call: Call)
    requires AgreeAt(k, s, t) && AgreeNodes(k, s, t) && CallOf(k, call)
    ensures Exec(s, call).1 == Exec(t, call).1
    ensures AgreeAt(k, Exec(s, call).0, Exec(t, call).0)
    ensures AgreeNodes(k, Exec(s, call).0, Exec(t, call).0)
  {
    if call.GetNode? || call.PatchNode? {
      NodeExecAgrees(k, s, t, call);
    } else {
      ObjectExecAgrees(k, s, t, call);
      ExecWrites(s, call);
      ExecWrites(t, call);
    }
    hide Exec, AgreeAt, CallOf;
  }

  lemma CallAgrees(k: Key, v: World, w: World, f: Fault)
    requires Same(k, v, w) && k in v.workers
    ensures k in w.workers && ReplyOf(v, k, f) == ReplyOf(w, k, f)
    ensures AgreeAt(k, StoreAfter(v, k, f), StoreAfter(w, k, f))
    ensures AgreeNodes(k, StoreAfter(v, k, f), StoreAfter(w, k, f))
  {
    assert k in w.workers && v.workers[k] == w.workers[k];
    NextCallIsOwn(k, v.workers[k]);
    hide Exec, NextCall;
    ExecAgrees(k, v.store, w.store, NextCall(k, v.workers[k]));
  }

  lemma TouchedAgrees(k: Key, s: Store, s': Store, t: Store, t': Store)
    requires OwnKeys(s) && OwnKeys(s') && OwnKeys(t) && OwnKeys(t')
    requires At(s, k) == At(t, k) && At(s', k) == At(t', k)
    ensures k in Touched(s, s') <==> k in Touched(t, t')
  {
    TouchedIsLocal(s, s', k);
    TouchedIsLocal(t, t', k);
  }

  lemma OwnStepAgrees(k: Key, v: World, w: World, f: Fault)
    requires Inv(v) && Inv(w) && Same(k, v, w) && k in v.workers
    ensures k in w.workers && Same(k, Advance(v, k, f), Advance(w, k, f))
  {
    CallAgrees(k, v, w, f);
    CallWrites(v, k, f);
    CallWrites(w, k, f);
    StepKeepsInv(v, Work(k, f));
    StepKeepsInv(w, Work(k, f));
    InvOwnKeys(v);
    InvOwnKeys(w);
    InvOwnKeys(Advance(v, k, f));
    InvOwnKeys(Advance(w, k, f));
    TouchedAgrees(k, v.store, StoreAfter(v, k, f), w.store, StoreAfter(w, k, f));
    AdvanceView(v, k, f);
    AdvanceView(w, k, f);
    hide Inv, StoreAfter, ReplyOf, Advance, View, Resumed;
    assert View(v, k) == View(w, k);
  }

  lemma OutsideMachinesAgree(k: Key, ms: map<Key, Machine>, ns: map<Key, Machine>, e: Event)
    requires Lookup(ms, k) == Lookup(ns, k)
    ensures Lookup(OutsideMachines(ms, e), k) == Lookup(OutsideMachines(ns, e), k)
  {
  }

  lemma OutsideGuestsAgree(k: Key, gs: map<Key, Guest>, hs: map<Key, Guest>, e: Event)
    requires Lookup(gs, k) == Lookup(hs, k)
    ensures Lookup(OutsideGuests(gs, e), k) == Lookup(OutsideGuests(hs, e), k)
  {
  }

  lemma OutsideNodesAgree(n: NodeKey, ns: map<NodeKey, string>, os: map<NodeKey, string>, e: Event)
    requires Lookup(ns, n) == Lookup(os, n)
    ensures Lookup(OutsideNodes(ns, e), n) == Lookup(OutsideNodes(os, e), n)
  {
  }

  lemma OutsideAgrees(k: Key, s: Store, t: Store, e: Event)
    requires AgreeAt(k, s, t) && AgreeNodes(k, s, t)
    ensures AgreeAt(k, Outside(s, e), Outside(t, e)) && AgreeNodes(k, Outside(s, e), Outside(t, e))
  {
    OutsideMachinesAgree(k, s.machines, t.machines, e);
    OutsideGuestsAgree(k, s.guests, t.guests, e);
    forall cluster
      ensures Lookup(OutsideNodes(s.nodes, e), NodeKey(k.ns, cluster, k.name))
           == Lookup(OutsideNodes(t.nodes, e), NodeKey(k.ns, cluster, k.name))
    {
      OutsideNodesAgree(NodeKey(k.ns, cluster, k.name), s.nodes, t.nodes, e);
    }
    hide OutsideMachines, OutsideGuests, OutsideNodes;
  }

  lemma ExternalAgrees(k: Key, v: World, w: World, e: Event)
    requires Inv(v) && Inv(w) && Same(k, v, w) && External(e)
    ensures Same(k, Apply(v, e), Apply(w, e))
  {
    OutsideAgrees(k, v.store, w.store, e);
    StepKeepsInv(v, e);
    StepKeepsInv(w, e);
    InvOwnKeys(v);
    InvOwnKeys(w);
    InvOwnKeys(Apply(v, e));
    InvOwnKeys(Apply(w, e));
    TouchedAgrees(k, v.store, Outside(v.store, e), w.store, Outside(w.store, e));
    hide Inv, Outside, Touched;
  }

  lemma StepAgrees(k: Key, v: World, w: World, e: Event)
    requires Inv(v) && Inv(w) && Same(k, v, w) && !Foreign(e, k)
    ensures Same(k, Apply(v, e), Apply(w, e))
  {
    if External(e) {
      hide Inv, Apply;
      ExternalAgrees(k, v, w, e);
    } else if e.Work? {
      hide Inv, Advance;
      if k in v.workers {
        OwnStepAgrees(k, v, w, e.fault);
      } else {
        assert View(v, k).worker == View(w, k).worker;
      }
    } else {
      hide Inv;
    }
  }

  // ---- Whole runs. ----

  // The run without the reconciles of other machines.
  function Purge(es: seq<Event>, k: Key): seq<Event> {
    if es == [] then []
    else
      var front, e := es[..|es| - 1], es[|es| - 1];
      if Foreign(e, k) then Purge(front, k) else Purge(front, k) + [e]
  }

  // Deleting every step of the other machines' reconciles from a run changes nothing for machine k.
  lemma {:induction false} OthersDoNotInterfere(w: World, es: seq<Event>, k: Key)
    requires Inv(w)
    ensures Same(k, Run(w, es), Run(w, Purge(es, k)))
  {
    if es != [] {
      var front, e := es[..|es| - 1], es[|es| - 1];
      OthersDoNotInterfere(w, front, k);
      RunKeepsInv(w, front);
      RunKeepsInv(w, Purge(front, k));
      if Foreign(e, k) {
        ForeignStep(Run(w, front), e, k);
      } else {
        StepAgrees(k, Run(w, front), Run(w, Purge(front, k)), e);
        RunSnoc(w, Purge(front, k), e);
      }
      hide Same, Apply, Inv;
    }
  }
}
