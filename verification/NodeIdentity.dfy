/** The provider ID of a workload Node: what the controller's read before its write is worth when
    others can give the Node an ID at any moment and the API server would accept any patch. */
module NodeIdentity {
  import opened Prelude
  import opened Names
  import opened MachineObject
  import opened ApiServer
  import opened Controller
  import opened Protocol
  import opened Safety

  // The machine that the Node n belongs to.
  function MachineOf(n: NodeKey): Key {
    Key(n.ns, n.name)
  }

  // A reconcile has read the Node n without an ID and is about to give it one.
  predicate Writing(w: World, n: NodeKey) {
    var k := MachineOf(n);
    k in w.workers && w.workers[k].WriteNode? && NodeOf(k, w.workers[k].c) == n
  }

  // Such a write would take away no ID of another party.
  predicate Unclaimed(w: World, n: NodeKey) {
    Writing(w, n) && n in w.store.nodes ==> w.store.nodes[n] in {"", ProviderID(MachineOf(n))}
  }

  // Another party gives the Node an ID of its own between the read and the write.
  predicate Contested(w: World, e: Event, n: NodeKey) {
    && Writing(w, n)
    && (e.JoinNode? || e.ClaimNode?) && e.n == n && e.id !in {"", ProviderID(MachineOf(n))}
    && OutsideNodes(w.store.nodes, e) != w.store.nodes
  }

  // ---- One step. ----

  // A call on behalf of k changes no Node but its own, and gives that its own ID.
  lemma PatchNodeWrites(s: Store, target: NodeKey, id: string, f: Fault, n: NodeKey)
    ensures var s' := Do(s, PatchNode(target, id), f).0;
            Lookup(s'.nodes, n)
            == if n == target && n in s.nodes && f != LostRequest then Some(id) else Lookup(s.nodes, n)
  {
  }

  lemma NodeWrite(w: World, k: Key, f: Fault, n: NodeKey)
    requires k in w.workers
    ensures var s := Advance(w, k, f).store;
            && (n in s.nodes <==> n in w.store.nodes)
            && (n in s.nodes && s.nodes[n] != w.store.nodes[n] ==>
                  && k == MachineOf(n) && Writing(w, n) && f != LostRequest
                  && s.nodes[n] == ProviderID(k) && (KubeKey(k) ==> DecodeProviderID(s.nodes[n]) == Some(k))
                  && (Unclaimed(w, n) ==> w.store.nodes[n] == ""))
            && (Writing(w, n) && k == MachineOf(n) && n in s.nodes && f != LostRequest ==> s.nodes[n] == ProviderID(k))
  {
    hide Advance;
    var x := w.workers[k];
    CallWrites(w, k, f);
    if x.WriteNode? {
      PatchNodeWrites(w.store, NodeOf(k, x.c), ProviderID(k), f, n);
      if KubeKey(k) {
        ProviderIDRoundTrip(k);
      }
    }
  }

  // A worker gets to the write only by reading an empty ID.
  lemma GetsToWrite(w: World, k: Key, f: Fault, n: NodeKey)
    requires k in w.workers && Writing(Advance(w, k, f), n) && k == MachineOf(n)
    ensures w.workers[k].ReadNode? && f == NoFault && Lookup(w.store.nodes, n) == Some("")
    ensures Advance(w, k, f).store == w.store
  {
    hide Exec;
    var x := w.workers[k];
    WriteFollowsRead(k, x, ReplyOf(w, k, f));
    assert Advance(w, k, f).workers[k] == Resume(k, x, ReplyOf(w, k, f)).job by {
      hide Resume, NextCall;
    }
    NodeReadIsTrue(w.store, NodeOf(k, x.c), f);
  }

  lemma WriteFollowsRead(k: Key, x: Job, r: Reply)
    ensures var p := Resume(k, x, r);
            p.Continue? && p.job.WriteNode? ==> x.ReadNode? && r == NodeIs("") && p.job.c == x.c
  {
  }

  lemma NodeReadIsTrue(s: Store, n: NodeKey, f: Fault)
    ensures Do(s, GetNode(n), f).0 == s
    ensures Do(s, GetNode(n), f).1 == NodeIs("") ==> f == NoFault && Lookup(s.nodes, n) == Some("")
  {
  }

  lemma WorkKeepsUnclaimed(w: World, k: Key, f: Fault, n: NodeKey)
    requires k in w.workers && Unclaimed(w, n)
    ensures Unclaimed(Advance(w, k, f), n)
    ensures var s := Advance(w, k, f).store;
            n in w.store.nodes && w.store.nodes[n] != "" ==> n in s.nodes && s.nodes[n] == w.store.nodes[n]
  {
    NodeWrite(w, k, f, n);
    if k == MachineOf(n) {
      if Writing(Advance(w, k, f), n) {
        GetsToWrite(w, k, f, n);
      }
    } else {
      OthersKeepWorker(w, k, f, MachineOf(n));
    }
    hide Advance, NodeOf;
  }

  lemma OthersKeepWorker(w: World, k: Key, f: Fault, j: Key)
    requires k in w.workers && j != k
    ensures Lookup(Advance(w, k, f).workers, j) == Lookup(w.workers, j)
  {
    hide Resume, NextCall, Exec, Touched;
  }

  lemma StepKeepsUnclaimed(w: World, e: Event, n: NodeKey)
    requires Unclaimed(w, n) && !Contested(w, e, n)
    ensures Unclaimed(Apply(w, e), n)
    ensures var s := Apply(w, e).store;
            n in w.store.nodes && w.store.nodes[n] != "" && e != LeaveNode(n) ==>
              n in s.nodes && s.nodes[n] == w.store.nodes[n]
  {
    if e.Work? {
      hide Advance;
      if e.k in w.workers {
        WorkKeepsUnclaimed(w, e.k, e.fault, n);
      }
    } else {
      hide NodeOf;
    }
  }

  // ---- Whole runs. ----

  // No step of the run falls between a worker's read and its patch with a foreign ID.
  ghost predicate Uncontested(w: World, es: seq<Event>, n: NodeKey) {
    forall i | 0 <= i < |es| :: !Contested(Run(w, es[..i]), es[i], n)
  }

  lemma UncontestedFront(w: World, es: seq<Event>, n: NodeKey)
    requires es != [] && Uncontested(w, es, n)
    ensures Uncontested(w, es[..|es| - 1], n)
    ensures !Contested(Run(w, es[..|es| - 1]), es[|es| - 1], n)
  {
    hide Contested, Run;
    var front := es[..|es| - 1];
    forall i | 0 <= i < |front|
      ensures !Contested(Run(w, front[..i]), front[i], n)
    {
      assert front[..i] == es[..i] && front[i] == es[i];
    }
  }

  lemma {:induction false} RunKeepsUnclaimed(w: World, es: seq<Event>, n: NodeKey)
    requires Unclaimed(w, n) && Uncontested(w, es, n)
    ensures Unclaimed(Run(w, es), n)
  {
    hide Unclaimed, Contested, Apply, Uncontested;
    if es != [] {
      UncontestedFront(w, es, n);
      RunKeepsUnclaimed(w, es[..|es| - 1], n);
      StepKeepsUnclaimed(Run(w, es[..|es| - 1]), es[|es| - 1], n);
    }
  }

  // A provider ID that is set at some point of a run, by whomever, is the Node's ID as long as the
  // Node is there, unless another party sets one in the very moment between a worker's read and
  // its patch.
  lemma {:induction false} NodeIDWrittenOnce(w: World, ds: seq<Event>, es: seq<Event>, n: NodeKey)
    requires Initial(w) && Uncontested(w, ds + es, n)
    requires n in Run(w, ds).store.nodes && Run(w, ds).store.nodes[n] != ""
    requires LeaveNode(n) !in es
    ensures var s := Run(w, ds + es).store; n in s.nodes && s.nodes[n] == Run(w, ds).store.nodes[n]
  {
    hide Unclaimed, Contested, Apply, Uncontested, Initial;
    if es == [] {
      assert ds + es == ds;
    } else {
      var front, e := es[..|es| - 1], es[|es| - 1];
      assert (ds + es)[..|ds + es| - 1] == ds + front && (ds + es)[|ds + es| - 1] == e;
      assert LeaveNode(n) !in front && e in es;
      UncontestedFront(w, ds + es, n);
      NodeIDWrittenOnce(w, ds, front, n);
      StartsUnclaimed(w, n);
      RunKeepsUnclaimed(w, ds + front, n);
      StepKeepsUnclaimed(Run(w, ds + front), e, n);
    }
  }

  lemma StartsUnclaimed(w: World, n: NodeKey)
    requires Initial(w)
    ensures Unclaimed(w, n)
  {
  }

  // The reconcile's next call would overwrite an ID.
  predicate OneCallOverwrites(v: World, n: NodeKey) {
    Overwritten(v, Apply(v, Work(MachineOf(n), NoFault)), n)
  }

  lemma ContestedIsOverwritten(w: World, e: Event, n: NodeKey)
    requires Contested(w, e, n)
    ensures OneCallOverwrites(Apply(w, e), n)
  {
    var v := Apply(w, e);
    assert Writing(v, n) && n in v.store.nodes;
    hide Advance;
    NodeWrite(v, MachineOf(n), NoFault, n);
  }

  lemma UnclaimedIsSafe(v: World, n: NodeKey)
    requires Unclaimed(v, n)
    ensures !OneCallOverwrites(v, n)
  {
    hide Advance;
    if MachineOf(n) in v.workers {
      NodeWrite(v, MachineOf(n), NoFault, n);
    }
  }

  // The exception is exact: at no point of a run is a worker one call away from overwriting an
  // ID, exactly when no step of the run is contested.
  lemma SafeExactlyWhenUncontested(w: World, es: seq<Event>, n: NodeKey)
    requires Initial(w)
    ensures Uncontested(w, es, n) <==> forall i | 0 <= i <= |es| :: !OneCallOverwrites(Run(w, es[..i]), n)
  {
    hide Unclaimed, Contested, Apply, OneCallOverwrites, Initial;
    if Uncontested(w, es, n) {
      forall i | 0 <= i <= |es|
        ensures !OneCallOverwrites(Run(w, es[..i]), n)
      {
        assert forall j | 0 <= j < i :: es[..i][..j] == es[..j];
        assert Uncontested(w, es[..i], n);
        StartsUnclaimed(w, n);
        RunKeepsUnclaimed(w, es[..i], n);
        UnclaimedIsSafe(Run(w, es[..i]), n);
      }
    } else {
      var i :| 0 <= i < |es| && Contested(Run(w, es[..i]), es[i], n);
      ContestedIsOverwritten(Run(w, es[..i]), es[i], n);
      assert es[..i + 1][..i] == es[..i];
    }
  }

  // ---- Exactly when an ID is overwritten. ----

  // What others make of the ID of Node n.
  function SetByOthers(id: Option<string>, e: Event, n: NodeKey): Option<string> {
    match e
    case JoinNode(m, i) => if m == n && id.None? then Some(i) else id
    case LeaveNode(m) => if m == n then None else id
    case ClaimNode(m, i) => if m == n && id == Some("") then Some(i) else id
    case _ => id
  }

  function IDAfter(id: Option<string>, es: seq<Event>, n: NodeKey): Option<string> {
    if es == [] then id else SetByOthers(IDAfter(id, es[..|es| - 1], n), es[|es| - 1], n)
  }

  // The reconcile of k makes no call and is not lost in a restart.
  predicate Waits(e: Event, k: Key) {
    e != Crash && (e.Work? ==> e.k != k)
  }

  lemma WaitingStep(w: World, e: Event, k: Key, n: NodeKey)
    requires k in w.workers && Waits(e, k) && MachineOf(n) == k
    ensures var v := Apply(w, e);
            && Lookup(v.workers, k) == Lookup(w.workers, k)
            && Lookup(v.store.nodes, n) == SetByOthers(Lookup(w.store.nodes, n), e, n)
  {
    if e.Work? {
      hide Advance;
      if e.k in w.workers {
        NodeWrite(w, e.k, e.fault, n);
        OthersKeepWorker(w, e.k, e.fault, k);
      }
    }
  }

  lemma {:induction false} WhileWaiting(w: World, es: seq<Event>, k: Key, n: NodeKey)
    requires k in w.workers && MachineOf(n) == k
    requires forall e | e in es :: Waits(e, k)
    ensures var v := Run(w, es);
            && Lookup(v.workers, k) == Lookup(w.workers, k)
            && Lookup(v.store.nodes, n) == IDAfter(Lookup(w.store.nodes, n), es, n)
  {
    hide Apply, SetByOthers;
    if es != [] {
      var front, e := es[..|es| - 1], es[|es| - 1];
      assert e in es && forall d | d in front :: d in es;
      WhileWaiting(w, front, k, n);
      WaitingStep(Run(w, front), e, k, n);
    }
  }

  predicate Overwritten(v: World, u: World, n: NodeKey) {
    && n in v.store.nodes && v.store.nodes[n] != ""
    && n in u.store.nodes && u.store.nodes[n] != v.store.nodes[n]
  }

  // From a worker's read of its Node to its next call: that call overwrites an ID exactly when
  // the read found none, the others then gave the Node a foreign one, and the patch arrives.
  lemma NodeIDOverwrittenExactlyWhen(w: World, es: seq<Event>, k: Key, read: Fault, patch: Fault)
    requires k in w.workers && w.workers[k].ReadNode?
    requires forall e | e in es :: Waits(e, k)
    ensures var n := NodeOf(k, w.workers[k].c);
            var v := Run(Apply(w, Work(k, read)), es);
            Overwritten(v, Apply(v, Work(k, patch)), n)
            <==> && read == NoFault && Lookup(w.store.nodes, n) == Some("") && patch != LostRequest
                 && IDAfter(Some(""), es, n) !in {None, Some(""), Some(ProviderID(k))}
  {
    hide Advance, IDAfter, Run;
    var n := NodeOf(k, w.workers[k].c);
    var w1 := Apply(w, Work(k, read));
    var v := Run(w1, es);
    ReadLeads(w, k, read);
    WhileWaiting(w1, es, k, n);
    NodeWrite(v, k, patch, n);
  }

  lemma ReadLeads(w: World, k: Key, f: Fault)
    requires k in w.workers && w.workers[k].ReadNode?
    ensures var n, w1 := NodeOf(k, w.workers[k].c), Apply(w, Work(k, f));
            && k in w1.workers && w1.store == w.store
            && (Writing(w1, n) <==> f == NoFault && Lookup(w.store.nodes, n) == Some(""))
  {
    hide Touched, ProviderID, Mirror, Judge, Fail, Validate, Begin;
  }
}
