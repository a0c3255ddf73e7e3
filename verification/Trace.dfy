/** The undisturbed calls of one reconcile, position by position. */
module Trace {
  import opened Prelude
  import opened Names
  import opened GuestConfig
  import opened MachineObject
  import opened ApiServer
  import opened Controller
  import opened Protocol
  import opened Sequential
  import GuestSpec

  // One call without a fault takes the reconcile of k from x over s to y over s'.
  predicate Moves(k: Key, s: Store, x: Job, s': Store, y: Job) {
    Exec(s, NextCall(k, x)).0 == s' && Resume(k, x, Exec(s, NextCall(k, x)).1) == Continue(y)
  }

  // The reconcile of k is at x over the store s.
  predicate Stands(v: World, k: Key, x: Job, s: Store) {
    k in v.workers && v.workers[k] == x && v.store == s
  }

  // A run of the reconcile of k and nothing else.
  predicate OwnWork(es: seq<Event>, k: Key) {
    forall e | e in es :: e == Work(k, NoFault)
  }

  ghost predicate Leads(w: World, k: Key, es: seq<Event>, y: Job, s: Store) {
    OwnWork(es, k) && Stands(Run(w, es), k, y, s)
  }

  lemma OneMore(w: World, k: Key, es: seq<Event>, x: Job, s: Store, y: Job, s': Store) returns (fs: seq<Event>)
    requires Leads(w, k, es, x, s) && Moves(k, s, x, s', y)
    ensures Leads(w, k, fs, y, s')
  {
    hide Run, Exec, Resume, NextCall, Touched;
    fs := es + [Work(k, NoFault)];
    RunSnoc(w, es, Work(k, NoFault));
  }

  // A live machine whose reconcile gets past every gate, with the exposure x.
  predicate Cleared(s: Store, k: Key, c: Context, x: Option<GuestSpec.Exposure>) {
    && k in s.machines && s.machines[k] == c.before && !c.before.deleting
    && Admit(s.env, k, c.before) == Admitted(c) && GateOf(s.env, k, c) == Go(x)
  }

  lemma FirstMoves(s: Store, k: Key, c: Context, x: Option<GuestSpec.Exposure>)
    requires Cleared(s, k, c, x)
    ensures c.before.owner.Some?
    ensures Moves(k, s, ReadMachine, s, ReadOwner(c.before))
    ensures Moves(k, s, ReadOwner(c.before), s, ReadCluster(c.before, c.owner))
  {
    hide GateOf;
  }

  lemma ClusterMove(s: Store, k: Key, c: Context, x: Option<GuestSpec.Exposure>)
    requires Cleared(s, k, c, x)
    ensures Moves(k, s, ReadCluster(c.before, c.owner), s, ReadBootstrap(c))
  {
    hide ConfigGate;
  }

  lemma GateMoves(s: Store, k: Key, c: Context, x: Option<GuestSpec.Exposure>)
    requires Cleared(s, k, c, x)
    ensures ConfigOK(c.before.config, x.Some?)
    ensures if c.owner.controlPlane && c.cluster.infraRef != "" then
              Moves(k, s, ReadBootstrap(c), s, ReadInfra(c)) && Moves(k, s, ReadInfra(c), s, ReadSeed(c, x))
            else Moves(k, s, ReadBootstrap(c), s, ReadSeed(c, x))
  {
    hide ConfigOK, ExposureOf;
  }
}
