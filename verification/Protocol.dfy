/** The whole system: objects, reconciles in flight, the work queue, and every step that
    the controller, the API server, users, KubeSwift and failures can take. */
module Protocol {
  import opened Prelude
  import opened Names
  import opened MachineObject
  import opened ApiServer
  import opened Controller
  import GuestSpec
  import GuestStatus

  // `reached` records the guest that the last finished reconcile of a key read, if it got so far.
  datatype World = World(store: Store, workers: map<Key, Job>, queue: set<Key>, reached: map<Key, Guest>)

  datatype Event =
    | Start(k: Key)
    | Work(k: Key, fault: Fault)
    | Crash
    | Enqueue(k: Key)
    | CreateMachine(k: Key, machine: Machine)
    | EditMachine(k: Key, machine: Machine)
    | DeleteMachine(k: Key)
    | SetOtherFinalizers(k: Key, present: bool)
    | ReportStatus(k: Key, status: GuestStatus.Status)
    | TerminateGuest(k: Key)
    | GuestGone(k: Key)
    | ForeignGuest(k: Key, guest: Guest)
    | EditSeed(k: Key, seed: Seed)
    | ChangeEnvironment(env: Environment)
    | JoinNode(n: NodeKey, id: string)
    | LeaveNode(n: NodeKey)
    | ClaimNode(n: NodeKey, id: string)

  // The machine a guest event is mapped to: the one its label names, in its namespace.
  function Subject(k: Key, g: Guest): Option<Key> {
    var labels := g.rendered.labels;
    if GuestSpec.MachineLabelKey in labels && labels[GuestSpec.MachineLabelKey] != "" then
      Some(Key(k.ns, labels[GuestSpec.MachineLabelKey]))
    else None
  }

  predicate Labelled(k: Key, g: Guest) {
    Subject(k, g) == Some(k)
  }

  function GuestEvent(s: Store, s': Store, k: Key): Option<Key> {
    if k in s'.guests then Subject(k, s'.guests[k])
    else if k in s.guests then Subject(k, s.guests[k])
    else None
  }

  // The keys the watches enqueue for a change of the store.
  function Touched(s: Store, s': Store): set<Key> {
    (set k | k in s.machines.Keys + s'.machines.Keys && Lookup(s.machines, k) != Lookup(s'.machines, k))
    + (set k | k in s.guests.Keys + s'.guests.Keys && Lookup(s.guests, k) != Lookup(s'.guests, k)
                && GuestEvent(s, s', k).Some? :: GuestEvent(s, s', k).value)
  }

  // Steps of users, of KubeSwift and of the workload clusters; a step that is not possible changes nothing.
  function OutsideMachines(ms: map<Key, Machine>, e: Event): map<Key, Machine> {
    match e
    case CreateMachine(k, m) =>
      if k in ms || !KubeKey(k) then ms else ms[k := m.(deleting := false, owned := Fresh)]
    case EditMachine(k, m) =>
      if k !in ms then ms
      else ms[k := m.(deleting := ms[k].deleting, otherFinalizers := ms[k].otherFinalizers, owned := ms[k].owned)]
    case DeleteMachine(k) =>
      if k !in ms then ms else PutMachine(ms, k, ms[k].(deleting := true))
    case SetOtherFinalizers(k, b) =>
      if k !in ms || (b && ms[k].deleting) then ms else PutMachine(ms, k, ms[k].(otherFinalizers := b))
    case _ => ms
  }

  function OutsideGuests(gs: map<Key, Guest>, e: Event): map<Key, Guest> {
    match e
    case ReportStatus(k, status) => if k !in gs then gs else gs[k := gs[k].(status := status)]
    case TerminateGuest(k) => if k !in gs then gs else gs[k := gs[k].(terminating := true)]
    case GuestGone(k) => if k in gs && gs[k].terminating then gs - {k} else gs
    case ForeignGuest(k, g) =>
      if k in gs || GuestSpec.MachineLabelKey in g.rendered.labels then gs else gs[k := g]
    case _ => gs
  }

  function OutsideSeeds(ss: map<Key, Seed>, e: Event): map<Key, Seed> {
    match e
    case EditSeed(k, seed) => if k !in ss then ss else ss[k := seed]
    case _ => ss
  }

  function OutsideNodes(ns: map<NodeKey, string>, e: Event): map<NodeKey, string> {
    match e
    case JoinNode(n, id) => if n in ns then ns else ns[n := id]
    case LeaveNode(n) => ns - {n}
    case ClaimNode(n, id) => if n in ns && ns[n] == "" then ns[n := id] else ns
    case _ => ns
  }

  function Outside(s: Store, e: Event): Store {
    Store(OutsideMachines(s.machines, e), OutsideGuests(s.guests, e), OutsideSeeds(s.seeds, e),
          OutsideNodes(s.nodes, e), if e.ChangeEnvironment? then e.env else s.env)
  }

  function Moved(w: World, s': Store): World {
    w.(store := s', queue := w.queue + Touched(w.store, s'))
  }

  // One call of the worker on k, and what it does with the reply.
  function Advance(w: World, k: Key, f: Fault): World
    requires k in w.workers
  {
    var (s', reply) := Do(w.store, NextCall(k, w.workers[k]), f);
    var w' := Moved(w, s');
    match Resume(k, w.workers[k], reply)
    case Continue(x) => w'.(workers := w'.workers[k := x])
    case Finish(verdict, last) =>
      World(s', w'.workers - {k},
            if verdict == Forget then w'.queue else w'.queue + {k},
            if last.Some? then w'.reached[k := last.value] else w'.reached - {k})
  }

  function Apply(w: World, e: Event): World {
    match e
    case Start(k) =>
      // Reconciles of one key never overlap.
      if k in w.queue && k !in w.workers then w.(workers := w.workers[k := ReadMachine], queue := w.queue - {k})
      else w
    case Work(k, f) => if k in w.workers then Advance(w, k, f) else w
    case Crash =>
      // After a restart the informer lists every machine.
      w.(workers := map[], queue := w.store.machines.Keys)
    case Enqueue(k) => w.(queue := w.queue + {k})
    case _ => Moved(w, Outside(w.store, e))
  }

  function Run(w: World, es: seq<Event>): World {
    if es == [] then w else Apply(Run(w, es[..|es| - 1]), es[|es| - 1])
  }

  lemma RunSnoc(w: World, es: seq<Event>, e: Event)
    ensures Run(w, es + [e]) == Apply(Run(w, es), e)
  {
    assert (es + [e])[..|es|] == es;
  }

  lemma {:induction false} RunConcat(w: World, es: seq<Event>, fs: seq<Event>)
    ensures Run(w, es + fs) == Run(Run(w, es), fs)
  {
    hide Apply;
    if fs == [] {
      assert es + fs == es;
    } else {
      var front, e := fs[..|fs| - 1], fs[|fs| - 1];
      RunConcat(w, es, front);
      RunSnoc(w, es + front, e);
      assert es + fs == es + front + [e];
    }
  }

  // ---- What concerns one machine. ----

  datatype Cell = Cell(
    machine: Option<Machine>, guest: Option<Guest>, seed: Option<Seed>,
    worker: Option<Job>, pending: bool, reached: Option<Guest>)

  function View(w: World, k: Key): Cell {
    Cell(Lookup(w.store.machines, k), Lookup(w.store.guests, k), Lookup(w.store.seeds, SeedKey(k)),
         Lookup(w.workers, k), k in w.queue, Lookup(w.reached, k))
  }

  // Guests with a label are this provider's own; their label names their key.
  predicate OwnKey(k: Key, guest: Option<Guest>) {
    guest.Some? ==> Subject(k, guest.value) in {None, Some(k)}
  }
}
