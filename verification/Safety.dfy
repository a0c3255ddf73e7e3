/** What holds in every reachable world: an invariant of each key's cell, kept by every
    step, and the guarantees that follow from it for whole runs. */
module Safety {
  import opened Prelude
  import opened Names
  import opened GuestConfig
  import opened MachineObject
  import opened ApiServer
  import opened Controller
  import opened Protocol
  import GuestSpec
  import GuestStatus

  // ---- The invariant of one key. ----

  predicate SoleInternalIP(addresses: seq<GuestStatus.Address>) {
    |addresses| == 1 && addresses[0].typ == GuestStatus.InternalIP && addresses[0].address != ""
  }

  // Provisioned and Ready always say the same, and Provisioned carries the contract's fields.
  predicate StatusOK(k: Key, o: Owned) {
    && o.provisioned.Some? == o.ready.Some?
    && (o.provisioned.Some? ==> o.provisioned.value == o.ready.value.status)
    && (o.provisioned == Some(true) ==> o.providerID == ProviderID(k) && SoleInternalIP(o.addresses))
    && o.providerID in {"", ProviderID(k)}
  }

  predicate MachineOK(k: Key, m: Machine) {
    && KubeKey(k)
    && StatusOK(k, m.owned)
    && (!m.deleting && !m.owned.finalizer ==> m.owned == Fresh)
  }

  // Conclusions drawn from a guest's status, as the machine's status shows them.
  predicate Mirrors(o: Owned, status: GuestStatus.Status) {
    o.ready.Some? &&
    if GuestStatus.IsUp(status) then
      && o.provisioned == Some(true) && o.ready == Some(Ready(true, "VMProvisioned", ""))
      && GuestStatus.IsReachedAt(status, o.addresses)
    else
      && o.provisioned == Some(false) && !o.ready.value.status
      && if status.phase == "Failed" then o.ready == Some(Ready(false, "VMFailed", ""))
         else GuestStatus.WaitsFor(status.conditions, o.ready.value.reason, o.ready.value.message)
  }

  // Once more against the conclusion that the backend draws.
  lemma MirrorMirrors(k: Key, c: Context, g: Guest)
    ensures Mirrors(Mirror(k, c, g), g.status)
  {
    GuestStatus.ObserveMeans(g.status, GuestStatus.Observe(g.status));
  }

  predicate NoOwnGuest(k: Key, c: Cell) {
    c.guest.Some? ==> !Labelled(k, c.guest.value)
  }

  // What a worker knows of the machine object it read.
  predicate SnapshotOK(k: Key, c: Cell, m: Machine) {
    && MachineOK(k, m)
    && (c.machine.Some? && c.machine.value.owned != m.owned ==> m.deleting && !m.owned.finalizer)
    && (c.machine.None? && !m.deleting ==> m.owned == Fresh)
    && (m.deleting && m.owned.finalizer ==> c.machine.Some? && c.machine.value.deleting)
  }

  predicate NormalOK(k: Key, c: Cell, x: Context) {
    && SnapshotOK(k, c, x.before)
    && !x.before.deleting
    && StatusOK(k, x.mem)
    && x.mem.finalizer
    && (x.before.owned.providerID != "" ==> x.mem.providerID == x.before.owned.providerID)
  }

  predicate DoomedOK(k: Key, c: Cell, x: Context) {
    && SnapshotOK(k, c, x.before)
    && x.before.deleting
    && x.mem == x.before.owned
  }

  // A labelled guest that a worker read is still the stored one, or its key is queued again.
  predicate SeenOK(k: Key, c: Cell, g: Guest) {
    Labelled(k, g) ==> c.guest == Some(g) || c.pending
  }

  predicate PersistOK(k: Key, c: Cell, x: Context, last: Option<Guest>, verdict: Verdict) {
    if x.before.deleting then
      && SnapshotOK(k, c, x.before)
      && last.None?
      && (x.mem == x.before.owned
          || (x.mem == x.before.owned.(finalizer := false) && NoOwnGuest(k, c) && c.seed.None?))
    else
      && NormalOK(k, c, x)
      && (last.Some? ==> SeenOK(k, c, last.value) && Mirrors(x.mem, last.value.status))
  }

  predicate JobOK(k: Key, c: Cell, x: Job) {
    match x
    case ReadMachine => true
    case ReadOwner(m) => SnapshotOK(k, c, m)
    case ReadCluster(m, _) => SnapshotOK(k, c, m)
    case ReadBootstrap(x) => NormalOK(k, c, x)
    case ReadInfra(x) => NormalOK(k, c, x)
    case ReadSeed(x, _) => NormalOK(k, c, x)
    case MakeSeed(x, _) => NormalOK(k, c, x)
    case MoveSeed(x, _, _) => NormalOK(k, c, x)
    case ReadGuest(x, _) => NormalOK(k, c, x) && c.seed.Some?
    case MakeGuest(x, _) => NormalOK(k, c, x) && c.seed.Some?
    case ReadKubeconfig(x, g) => NormalOK(k, c, x) && SeenOK(k, c, g) && Mirrors(x.mem, g.status)
    case ReadNode(x, g) => NormalOK(k, c, x) && SeenOK(k, c, g) && Mirrors(x.mem, g.status)
    case WriteNode(x, g) => NormalOK(k, c, x) && SeenOK(k, c, g) && Mirrors(x.mem, g.status)
    case ReadDoomed(x) => DoomedOK(k, c, x)
    case KillGuest(x) => DoomedOK(k, c, x)
    case KillSeed(x) => DoomedOK(k, c, x) && NoOwnGuest(k, c)
    case Persist(x, last, verdict) => PersistOK(k, c, x, last, verdict)
  }

  ghost predicate GuestOK(k: Key, c: Cell) {
    && OwnKey(k, c.guest)
    && (c.guest.Some? && Labelled(k, c.guest.value) ==>
          c.seed.Some? && GuestSpec.WellFormed(k.name, c.guest.value.rendered))
  }

  // No work is outstanding for the key.
  predicate Quiet(c: Cell) {
    c.worker.None? && !c.pending
  }

  // The status mirrors the guest last read; one that carries the label is still the stored one.
  predicate MirrorOK(k: Key, c: Cell) {
    Quiet(c) && c.reached.Some? && c.machine.Some? && !c.machine.value.deleting ==>
      && Mirrors(c.machine.value.owned, c.reached.value.status)
      && (Labelled(k, c.reached.value) ==> c.guest == c.reached)
  }

  ghost predicate CellOK(k: Key, c: Cell) {
    && (c.machine.Some? ==> MachineOK(k, c.machine.value))
    && GuestOK(k, c)
    && (c.worker.Some? ==> JobOK(k, c, c.worker.value))
    && MirrorOK(k, c)
  }

  ghost predicate Inv(w: World) {
    forall k :: CellOK(k, View(w, k))
  }

  // ---- Every step keeps it. ----

  lemma TouchedMachine(s: Store, s': Store, k: Key)
    requires Lookup(s.machines, k) != Lookup(s'.machines, k)
    ensures k in Touched(s, s')
  {
  }

  lemma TouchedGuest(s: Store, s': Store, k: Key)
    requires Lookup(s.guests, k) != Lookup(s'.guests, k)
    requires GuestEvent(s, s', k) == Some(k)
    ensures k in Touched(s, s')
  {
    assert k in s.guests.Keys + s'.guests.Keys;
  }

  // A store step as one key sees it.
  datatype Stored = Stored(machine: Option<Machine>, guest: Option<Guest>, seed: Option<Seed>)

  function At(s: Store, k: Key): Stored {
    Stored(Lookup(s.machines, k), Lookup(s.guests, k), Lookup(s.seeds, SeedKey(k)))
  }

  lemma MovedMachine(w: World, s': Store, k: Key)
    ensures var c, c' := View(w, k), View(Moved(w, s'), k);
            && c'.worker == c.worker && c'.reached == c.reached
            && Stored(c'.machine, c'.guest, c'.seed) == At(s', k)
            && (c.pending ==> c'.pending)
            && (c'.machine != c.machine ==> c'.pending)
  {
    hide Touched;
    if Lookup(w.store.machines, k) != Lookup(s'.machines, k) {
      TouchedMachine(w.store, s', k);
    }
  }

  lemma MovedGuest(w: World, s': Store, k: Key)
    requires GuestEvent(w.store, s', k) == Some(k)
    ensures Lookup(s'.guests, k) != Lookup(w.store.guests, k) ==> View(Moved(w, s'), k).pending
  {
    hide Touched, GuestEvent;
    if Lookup(w.store.guests, k) != Lookup(s'.guests, k) {
      TouchedGuest(w.store, s', k);
    }
  }

  lemma LabelledEvent(s: Store, s': Store, k: Key)
    requires k in s.guests && k in s'.guests ==> s.guests[k].rendered == s'.guests[k].rendered
    requires (k in s.guests && Labelled(k, s.guests[k])) || (k in s'.guests && Labelled(k, s'.guests[k]) && k !in s.guests)
    ensures GuestEvent(s, s', k) == Some(k)
  {
  }

  // A change of the machine or of its labelled guest makes the key pending.
  lemma MovedView(w: World, s': Store, k: Key)
    requires k in w.store.guests && k in s'.guests ==> w.store.guests[k].rendered == s'.guests[k].rendered
    ensures var c, c' := View(w, k), View(Moved(w, s'), k);
            && c'.worker == c.worker && c'.reached == c.reached
            && Stored(c'.machine, c'.guest, c'.seed) == At(s', k)
            && (c.pending ==> c'.pending)
            && (c'.machine != c.machine ==> c'.pending)
            && (c'.guest != c.guest && (c.guest.Some? && Labelled(k, c.guest.value)) ==> c'.pending)
            && (c'.guest != c.guest && (c'.guest.Some? && Labelled(k, c'.guest.value)) ==> c'.pending)
  {
    MovedMachine(w, s', k);
    var g, g' := Lookup(w.store.guests, k), Lookup(s'.guests, k);
    if (g.Some? && Labelled(k, g.value)) || (g'.Some? && Labelled(k, g'.value)) {
      LabelledEvent(w.store, s', k);
      MovedGuest(w, s', k);
    }
    hide Moved, GuestEvent, Subject;
  }

  // What a step of the outside may do to one key's objects.
  predicate OutsideStep(k: Key, a: Stored, b: Stored) {
    && (a.machine == b.machine
        || (a.machine.None? && b.machine.Some? && KubeKey(k) && b.machine.value.owned == Fresh && !b.machine.value.deleting)
        || (a.machine.Some? && b.machine.Some? && b.machine.value.owned == a.machine.value.owned
            && (a.machine.value.deleting ==> b.machine.value.deleting))
        || (a.machine.Some? && b.machine.None? && !a.machine.value.owned.finalizer))
    && (a.guest == b.guest
        || (a.guest.None? && b.guest.Some? && Subject(k, b.guest.value) == None)
        || (a.guest.Some? && b.guest.Some? && b.guest.value.rendered == a.guest.value.rendered)
        || b.guest.None?)
    && a.seed.Some? == b.seed.Some?
  }

  lemma OutsideIsStep(s: Store, e: Event, k: Key)
    ensures OutsideStep(k, At(s, k), At(Outside(s, e), k))
  {
    if e.CreateMachine? || e.EditMachine? || e.DeleteMachine? || e.SetOtherFinalizers? {
      assert Outside(s, e).guests == s.guests && Outside(s, e).seeds == s.seeds;
    } else if e.EditSeed? {
      assert Outside(s, e).guests == s.guests && Outside(s, e).machines == s.machines;
    } else {
      assert Outside(s, e).seeds == s.seeds && Outside(s, e).machines == s.machines;
    }
  }

  // The same, of two successive cells of k.
  predicate OutsideMove(k: Key, c: Cell, d: Cell) {
    && d.worker == c.worker && d.reached == c.reached
    && OutsideStep(k, Stored(c.machine, c.guest, c.seed), Stored(d.machine, d.guest, d.seed))
    && (c.pending ==> d.pending)
    && (d.machine != c.machine ==> d.pending)
    && (d.guest != c.guest && (c.guest.Some? && Labelled(k, c.guest.value)) ==> d.pending)
  }

  lemma OutsideKeepsSnapshot(k: Key, c: Cell, d: Cell, m: Machine)
    requires OutsideMove(k, c, d) && SnapshotOK(k, c, m)
    ensures SnapshotOK(k, d, m)
  {
  }

  lemma OutsideKeepsJob(k: Key, c: Cell, d: Cell, x: Job)
    requires OutsideMove(k, c, d) && JobOK(k, c, x)
    ensures JobOK(k, d, x)
  {
    match x
    case ReadMachine =>
    case ReadOwner(m) => OutsideKeepsSnapshot(k, c, d, m);
    case ReadCluster(m, _) => OutsideKeepsSnapshot(k, c, d, m);
    case _ => OutsideKeepsSnapshot(k, c, d, x.c.before);
  }

  lemma OutsideKeepsGuest(k: Key, c: Cell, d: Cell)
    requires OutsideMove(k, c, d) && GuestOK(k, c)
    ensures GuestOK(k, d)
  {
  }

  lemma OutsideKeepsMachine(k: Key, c: Cell, d: Cell)
    requires OutsideMove(k, c, d) && (c.machine.Some? ==> MachineOK(k, c.machine.value))
    ensures d.machine.Some? ==> MachineOK(k, d.machine.value)
  {
  }

  lemma OutsideKeepsMirror(k: Key, c: Cell, d: Cell)
    requires OutsideMove(k, c, d) && MirrorOK(k, c)
    ensures MirrorOK(k, d)
  {
  }

  lemma OutsideKeepsCell(w: World, e: Event, k: Key)
    requires CellOK(k, View(w, k))
    ensures CellOK(k, View(Moved(w, Outside(w.store, e)), k))
  {
    var c, d := View(w, k), View(Moved(w, Outside(w.store, e)), k);
    OutsideIsStep(w.store, e, k);
    MovedView(w, Outside(w.store, e), k);
    assert OutsideMove(k, c, d);
    OutsideKeepsMachine(k, c, d);
    OutsideKeepsGuest(k, c, d);
    OutsideKeepsMirror(k, c, d);
    if c.worker.Some? {
      OutsideKeepsJob(k, c, d, c.worker.value);
    }
  }

  // ---- Steps of the controller. ----

  function StoreAfter(w: World, k: Key, f: Fault): Store
    requires k in w.workers
  {
    Do(w.store, NextCall(k, w.workers[k]), f).0
  }

  function ReplyOf(w: World, k: Key, f: Fault): Reply
    requires k in w.workers
  {
    Do(w.store, NextCall(k, w.workers[k]), f).1
  }

  // Which objects each call can write.
  lemma ExecWrites(s: Store, call: Call)
    ensures var s' := Exec(s, call).0;
            && s'.env == s.env
            && (!call.PatchMachine? ==> s'.machines == s.machines)
            && (!call.CreateGuest? && !call.DeleteGuest? ==> s'.guests == s.guests)
            && (!call.CreateSeed? && !call.UpdateSeed? && !call.DeleteSeed? ==> s'.seeds == s.seeds)
            && (!call.PatchNode? ==> s'.nodes == s.nodes)
  {
  }

  // Which objects a worker can write, by its position.
  lemma CallWrites(w: World, k: Key, f: Fault)
    requires k in w.workers
    ensures Advance(w, k, f).store == StoreAfter(w, k, f)
    ensures var x, s, s' := w.workers[k], w.store, StoreAfter(w, k, f);
            && s'.env == s.env
            && (!x.Persist? ==> s'.machines == s.machines)
            && (!x.MakeGuest? && !x.KillGuest? ==> s'.guests == s.guests)
            && (!x.MakeSeed? && !x.MoveSeed? && !x.KillSeed? ==> s'.seeds == s.seeds)
            && (!x.WriteNode? ==> s'.nodes == s.nodes)
  {
    hide Exec, Resume;
    ExecWrites(w.store, NextCall(k, w.workers[k]));
  }

  lemma PersistFrame(s: Store, k: Key, x: Job, f: Fault, j: Key)
    requires j != k && x.Persist?
    ensures At(Do(s, NextCall(k, x), f).0, j) == At(s, j)
  {
    hide Patched;
  }

  lemma OtherCallFrame(s: Store, k: Key, x: Job, f: Fault, j: Key)
    requires j != k && !x.Persist?
    ensures At(Do(s, NextCall(k, x), f).0, j) == At(s, j)
  {
    hide PutMachine, Patched, RenderFor, DesiredSeed, Migrated, ProviderID;
    SeedKeyInjective(j, k);
  }

  // A worker's call changes no object of another key.
  lemma CallFrame(s: Store, k: Key, x: Job, f: Fault, j: Key)
    requires j != k
    ensures At(Do(s, NextCall(k, x), f).0, j) == At(s, j)
  {
    hide Do, NextCall, At;
    if x.Persist? {
      PersistFrame(s, k, x, f, j);
    } else {
      OtherCallFrame(s, k, x, f, j);
    }
  }

  lemma MorePending(k: Key, c: Cell, p: bool)
    requires CellOK(k, c)
    ensures CellOK(k, c.(pending := c.pending || p))
  {
    hide JobOK, Mirrors, MachineOK, GuestOK;
    var d := c.(pending := c.pending || p);
    GuestIgnoresPending(k, c, d);
    if c.worker.Some? {
      JobIgnoresWorker(k, c, d, c.worker.value);
    }
  }

  lemma GuestIgnoresPending(k: Key, c: Cell, d: Cell)
    requires GuestOK(k, c) && d == c.(pending := d.pending)
    ensures GuestOK(k, d)
  {
  }

  lemma AdvanceKeepsOthers(w: World, k: Key, f: Fault, j: Key)
    requires k in w.workers && j != k && CellOK(j, View(w, j))
    ensures CellOK(j, View(Advance(w, k, f), j))
  {
    hide CellOK, NextCall, Resume;
    CallFrame(w.store, k, w.workers[k], f, j);
    var d := View(Advance(w, k, f), j);
    MorePending(j, View(w, j), d.pending);
    assert d == View(w, j).(pending := View(w, j).pending || d.pending);
  }

  // The cell of k after the worker on k goes on with a reply, given what became of k's objects.
  function Resumed(k: Key, c: Cell, a: Stored, touched: bool, r: Reply): Cell
    requires c.worker.Some?
  {
    var pending := c.pending || touched;
    match Resume(k, c.worker.value, r)
    case Continue(x) => Cell(a.machine, a.guest, a.seed, Some(x), pending, c.reached)
    case Finish(verdict, last) =>
      Cell(a.machine, a.guest, a.seed, None, pending || verdict != Forget, last)
  }

  lemma AdvanceView(w: World, k: Key, f: Fault)
    requires k in w.workers
    ensures var s' := StoreAfter(w, k, f);
            View(Advance(w, k, f), k) == Resumed(k, View(w, k), At(s', k), k in Touched(w.store, s'), ReplyOf(w, k, f))
  {
  }

  predicate Reads(x: Job) {
    !(x.MakeSeed? || x.MoveSeed? || x.KillSeed? || x.MakeGuest? || x.KillGuest? || x.Persist?)
  }

  // A reply to a read is what the store holds.
  predicate Truthful(k: Key, c: Cell, x: Job, r: Reply) {
    && (x.ReadMachine? && r.MachineIs? ==> c.machine == Some(r.machine))
    && ((x.ReadGuest? || x.ReadDoomed?) && r.GuestIs? ==> c.guest == Some(r.guest))
    && ((x.ReadGuest? || x.ReadDoomed?) && r.NotFound? ==> c.guest == None)
    && (x.ReadSeed? && r.SeedIs? ==> c.seed.Some?)
  }

  lemma BeginOK(k: Key, c: Cell, x: Context)
    requires SnapshotOK(k, c, x.before) && x.mem == x.before.owned
    ensures Begin(x).Continue? && JobOK(k, c, Begin(x).job)
  {
  }

  lemma JudgeOK(k: Key, c: Cell, x: Context, g: Guest)
    requires NormalOK(k, c, x) && SeenOK(k, c, g)
    ensures Judge(k, x, g).Continue? && JobOK(k, c, Judge(k, x, g).job)
  {
    hide Mirrors;
    MirrorMirrors(k, x, g);
  }

  // A step is sound when the new objects are, and what the worker goes on with is.
  predicate Outcome(k: Key, b: Cell, p: Progress) {
    match p
    case Continue(x) => JobOK(k, b, x)
    case Finish(verdict, last) =>
      verdict == Forget ==> MirrorOK(k, b.(worker := None, reached := last))
  }

  lemma JobIgnoresWorker(k: Key, b: Cell, d: Cell, x: Job)
    requires d == b.(worker := d.worker, reached := d.reached, pending := d.pending) && (b.pending ==> d.pending)
    requires JobOK(k, b, x)
    ensures JobOK(k, d, x)
  {
  }

  lemma ResumedOK(k: Key, c: Cell, b: Cell, touched: bool, r: Reply)
    requires c.worker.Some?
    requires b == c.(machine := b.machine, guest := b.guest, seed := b.seed, pending := c.pending || touched)
    requires b.machine.Some? ==> MachineOK(k, b.machine.value)
    requires GuestOK(k, b)
    requires Outcome(k, b, Resume(k, c.worker.value, r))
    ensures CellOK(k, Resumed(k, c, Stored(b.machine, b.guest, b.seed), touched, r))
  {
    var d := Resumed(k, c, Stored(b.machine, b.guest, b.seed), touched, r);
    if d.worker.Some? {
      JobIgnoresWorker(k, b, d, d.worker.value);
    }
  }

  lemma ReadMachineOK(k: Key, c: Cell, x: Job, r: Reply)
    requires x.ReadMachine? && Truthful(k, c, x, r) && (c.machine.Some? ==> MachineOK(k, c.machine.value))
    ensures Outcome(k, c, Resume(k, x, r))
  {
  }

  lemma ReadOwnerOK(k: Key, c: Cell, x: Job, r: Reply)
    requires x.ReadOwner? && JobOK(k, c, x)
    ensures Outcome(k, c, Resume(k, x, r))
  {
  }

  lemma ReadClusterOK(k: Key, c: Cell, x: Job, r: Reply)
    requires x.ReadCluster? && JobOK(k, c, x)
    ensures Outcome(k, c, Resume(k, x, r))
  {
    if r.ClusterIs? {
      BeginOK(k, c, Context(x.ksm, x.ksm.owned, x.owner, r.cluster));
    }
  }

  lemma FailOK(k: Key, c: Cell, x: Context)
    requires NormalOK(k, c, x)
    ensures Outcome(k, c, Fail(x))
  {
  }

  lemma ValidateOK(k: Key, c: Cell, x: Context, e: Option<GuestSpec.Exposure>)
    requires NormalOK(k, c, x)
    ensures Outcome(k, c, Validate(x, e))
  {
    FailOK(k, c, x);
  }

  lemma ReadGatesOK(k: Key, c: Cell, x: Job, r: Reply)
    requires (x.ReadBootstrap? || x.ReadInfra?) && JobOK(k, c, x)
    ensures Outcome(k, c, Resume(k, x, r))
  {
    ValidateOK(k, c, x.c, None);
    if r.InfraIs? {
      ValidateOK(k, c, x.c, ExposureOf(x.c.before.clusterLabel, r.endpoint));
    }
  }

  lemma ReadSeedOK(k: Key, c: Cell, x: Job, r: Reply)
    requires x.ReadSeed? && JobOK(k, c, x) && Truthful(k, c, x, r)
    ensures Outcome(k, c, Resume(k, x, r))
  {
    FailOK(k, c, x.c);
  }

  lemma ReadGuestOK(k: Key, c: Cell, x: Job, r: Reply)
    requires x.ReadGuest? && JobOK(k, c, x) && Truthful(k, c, x, r)
    ensures Outcome(k, c, Resume(k, x, r))
  {
    FailOK(k, c, x.c);
    if r.GuestIs? {
      JudgeOK(k, c, x.c, r.guest);
    }
  }

  lemma NodeStepOK(k: Key, c: Cell, x: Job, r: Reply)
    requires (x.ReadKubeconfig? || x.ReadNode? || x.WriteNode?) && JobOK(k, c, x)
    ensures Outcome(k, c, Resume(k, x, r))
  {
    hide Begin, Validate, Judge, Fail, Mirrors, StatusOK;
  }

  lemma ReadDoomedOK(k: Key, c: Cell, x: Job, r: Reply)
    requires x.ReadDoomed? && JobOK(k, c, x) && Truthful(k, c, x, r)
    ensures Outcome(k, c, Resume(k, x, r))
  {
  }

  lemma ReadOutcomeOK(k: Key, c: Cell, x: Job, r: Reply)
    requires Reads(x) && JobOK(k, c, x) && Truthful(k, c, x, r)
    requires c.machine.Some? ==> MachineOK(k, c.machine.value)
    ensures Outcome(k, c, Resume(k, x, r))
  {
    hide JobOK, Outcome, Resume, Truthful, MachineOK;
    if x.ReadMachine? {
      ReadMachineOK(k, c, x, r);
    } else if x.ReadOwner? {
      ReadOwnerOK(k, c, x, r);
    } else if x.ReadCluster? {
      ReadClusterOK(k, c, x, r);
    } else if x.ReadBootstrap? || x.ReadInfra? {
      ReadGatesOK(k, c, x, r);
    } else if x.ReadSeed? {
      ReadSeedOK(k, c, x, r);
    } else if x.ReadGuest? {
      ReadGuestOK(k, c, x, r);
    } else if x.ReadDoomed? {
      ReadDoomedOK(k, c, x, r);
    } else {
      NodeStepOK(k, c, x, r);
    }
  }

  lemma ReadKeepsCell(k: Key, c: Cell, r: Reply)
    requires CellOK(k, c) && c.worker.Some? && Reads(c.worker.value)
    requires Truthful(k, c, c.worker.value, r)
    ensures CellOK(k, Resumed(k, c, Stored(c.machine, c.guest, c.seed), false, r))
  {
    ReadOutcomeOK(k, c, c.worker.value, r);
    ResumedOK(k, c, c, false, r);
  }

  // A worker that ensures or removes the seed.
  lemma SeedStepOK(k: Key, c: Cell, b: Cell, x: Job, r: Reply)
    requires JobOK(k, c, x) && b == c.(seed := b.seed)
    requires || ((x.MakeSeed? || x.MoveSeed?) && (r == Done ==> b.seed.Some?))
             || (x.KillSeed? && (r in {Done, NotFound} ==> b.seed.None?))
    ensures Outcome(k, b, Resume(k, x, r))
  {
    if !x.KillSeed? {
      FailOK(k, b, x.c);
    }
  }

  lemma SeedStepKeepsCell(k: Key, c: Cell, seed: Option<Seed>, r: Reply)
    requires CellOK(k, c) && c.worker.Some?
    requires var x := c.worker.value;
             || ((x.MakeSeed? || x.MoveSeed?) && (c.seed.Some? ==> seed.Some?) && (r == Done ==> seed.Some?))
             || (x.KillSeed? && (r in {Done, NotFound} ==> seed.None?))
    ensures CellOK(k, Resumed(k, c, Stored(c.machine, c.guest, seed), false, r))
  {
    var b := c.(seed := seed);
    SeedStepOK(k, c, b, c.worker.value, r);
    assert GuestOK(k, b);
    ResumedOK(k, c, b, false, r);
  }

  lemma MakeGuestOK(k: Key, c: Cell, b: Cell, x: Job, r: Reply)
    requires x.MakeGuest? && JobOK(k, c, x) && b == c.(guest := b.guest, pending := b.pending)
    requires r.GuestIs? ==> b.guest == Some(r.guest)
    ensures Outcome(k, b, Resume(k, x, r))
  {
    FailOK(k, b, x.c);
    if r.GuestIs? {
      JudgeOK(k, b, x.c, r.guest);
    }
  }

  lemma MadeGuestOK(k: Key, c: Cell, b: Cell, x: Job)
    requires x.MakeGuest? && JobOK(k, c, x) && b == c.(guest := b.guest, pending := b.pending)
    requires GuestOK(k, c)
    requires b.guest == c.guest || b.guest == Some(Guest(RenderFor(k, x.c, x.x), false, GuestStatus.Blank))
    ensures GuestOK(k, b)
  {
    GuestSpec.RenderWellFormed(k.name, x.c.before.clusterLabel, x.c.before.config.value, x.x);
  }

  lemma KillGuestOK(k: Key, c: Cell, b: Cell, x: Job, r: Reply)
    requires x.KillGuest? && JobOK(k, c, x) && b == c.(guest := b.guest, pending := b.pending)
    ensures Outcome(k, b, Resume(k, x, r))
  {
  }

  lemma GuestStepKeepsCell(k: Key, c: Cell, guest: Option<Guest>, touched: bool, r: Reply)
    requires CellOK(k, c) && c.worker.Some?
    requires var x := c.worker.value;
             || (x.MakeGuest?
                 && (guest == c.guest || guest == Some(Guest(RenderFor(k, x.c, x.x), false, GuestStatus.Blank)))
                 && (r.GuestIs? ==> guest == Some(r.guest)))
             || (x.KillGuest?
                 && (guest == c.guest || (c.guest.Some? && guest == Some(c.guest.value.(terminating := true)))))
    ensures CellOK(k, Resumed(k, c, Stored(c.machine, guest, c.seed), touched, r))
  {
    var x, b := c.worker.value, c.(guest := guest, pending := c.pending || touched);
    if x.MakeGuest? {
      MakeGuestOK(k, c, b, x, r);
      MadeGuestOK(k, c, b, x);
    } else {
      KillGuestOK(k, c, b, x, r);
      assert GuestOK(k, b);
    }
    ResumedOK(k, c, b, touched, r);
  }

  // Writing back what a worker knows: the stored object becomes the in-memory copy, except
  // when nothing is left to write.
  lemma PatchedIsMem(k: Key, c: Cell, x: Context, last: Option<Guest>, verdict: Verdict)
    requires PersistOK(k, c, x, last, verdict) && c.machine.Some?
    ensures var o := c.machine.value.owned;
            Patched(x.before.owned, x.mem, o) == if o == x.before.owned then x.mem else o
    ensures c.machine.value.owned != x.before.owned ==> x.mem == x.before.owned
  {
  }

  // What PatchMachine does to the machine of k.
  predicate PersistStep(m: Option<Machine>, x: Context, m': Option<Machine>, r: Reply) {
    || (m' == m && r != Done)
    || (&& m.Some?
        && var n := m.value.(owned := Patched(x.before.owned, x.mem, m.value.owned));
           m' == if n.deleting && !n.owned.finalizer && !n.otherFinalizers then None else Some(n))
  }

  lemma PersistWritesOK(k: Key, c: Cell, m: Option<Machine>, x: Job, r: Reply)
    requires x.Persist? && JobOK(k, c, x) && PersistStep(c.machine, x.c, m, r)
    requires c.machine.Some? ==> MachineOK(k, c.machine.value)
    ensures m.Some? ==> MachineOK(k, m.value)
  {
    if c.machine.Some? {
      PatchedIsMem(k, c, x.c, x.last, x.verdict);
    }
  }

  lemma PersistOutcomeOK(k: Key, c: Cell, b: Cell, x: Job, r: Reply)
    requires x.Persist? && JobOK(k, c, x) && PersistStep(c.machine, x.c, b.machine, r)
    requires b == c.(machine := b.machine, pending := b.pending) && (c.pending ==> b.pending)
    requires b.machine != c.machine ==> b.pending
    ensures Outcome(k, b, Resume(k, x, r))
  {
    if c.machine.Some? {
      PatchedIsMem(k, c, x.c, x.last, x.verdict);
    }
  }

  lemma PersistKeepsCell(k: Key, c: Cell, m: Option<Machine>, touched: bool, r: Reply)
    requires CellOK(k, c) && c.worker.Some? && c.worker.value.Persist?
    requires m != c.machine ==> touched
    requires PersistStep(c.machine, c.worker.value.c, m, r)
    ensures CellOK(k, Resumed(k, c, Stored(m, c.guest, c.seed), touched, r))
  {
    var x, b := c.worker.value, c.(machine := m, pending := c.pending || touched);
    PersistWritesOK(k, c, m, x, r);
    PersistOutcomeOK(k, c, b, x, r);
    assert GuestOK(k, b);
    ResumedOK(k, c, b, touched, r);
  }

  // ---- What each call does to the objects of k. ----

  lemma ReadCall(w: World, k: Key, f: Fault)
    requires k in w.workers && Reads(w.workers[k])
    ensures StoreAfter(w, k, f) == w.store.(nodes := StoreAfter(w, k, f).nodes)
    ensures Truthful(k, View(w, k), w.workers[k], ReplyOf(w, k, f))
  {
  }

  lemma SeedCall(w: World, k: Key, f: Fault)
    requires k in w.workers && (w.workers[k].MakeSeed? || w.workers[k].MoveSeed? || w.workers[k].KillSeed?)
    ensures var x, r, a, b := w.workers[k], ReplyOf(w, k, f), Lookup(w.store.seeds, SeedKey(k)), At(StoreAfter(w, k, f), k).seed;
            if x.KillSeed? then r in {Done, NotFound} ==> b.None?
            else (a.Some? ==> b.Some?) && (r == Done ==> b.Some?)
    ensures StoreAfter(w, k, f) == w.store.(seeds := StoreAfter(w, k, f).seeds)
  {
  }

  lemma GuestCall(w: World, k: Key, f: Fault)
    requires k in w.workers && (w.workers[k].MakeGuest? || w.workers[k].KillGuest?)
    ensures var x, r, a, b := w.workers[k], ReplyOf(w, k, f), Lookup(w.store.guests, k), At(StoreAfter(w, k, f), k).guest;
            if x.MakeGuest? then
              && (b == a || b == Some(Guest(RenderFor(k, x.c, x.x), false, GuestStatus.Blank)))
              && (r.GuestIs? ==> b == Some(r.guest))
            else b == a || (a.Some? && b == Some(a.value.(terminating := true)))
    ensures StoreAfter(w, k, f) == w.store.(guests := StoreAfter(w, k, f).guests)
  {
  }

  lemma PersistCall(w: World, k: Key, f: Fault)
    requires k in w.workers && w.workers[k].Persist?
    ensures PersistStep(Lookup(w.store.machines, k), w.workers[k].c, At(StoreAfter(w, k, f), k).machine, ReplyOf(w, k, f))
    ensures StoreAfter(w, k, f) == w.store.(machines := StoreAfter(w, k, f).machines)
  {
  }

  lemma ReadAdvances(w: World, k: Key, f: Fault)
    requires k in w.workers && CellOK(k, View(w, k)) && Reads(w.workers[k])
    ensures CellOK(k, View(Advance(w, k, f), k))
  {
    AdvanceView(w, k, f);
    ReadCall(w, k, f);
    hide CellOK, Resumed, Advance;
    ReadKeepsCell(k, View(w, k), ReplyOf(w, k, f));
  }

  lemma SeedAdvances(w: World, k: Key, f: Fault)
    requires k in w.workers && CellOK(k, View(w, k))
    requires w.workers[k].MakeSeed? || w.workers[k].MoveSeed? || w.workers[k].KillSeed?
    ensures CellOK(k, View(Advance(w, k, f), k))
  {
    AdvanceView(w, k, f);
    SeedCall(w, k, f);
    hide CellOK, Resumed, Advance;
    SeedStepKeepsCell(k, View(w, k), At(StoreAfter(w, k, f), k).seed, ReplyOf(w, k, f));
  }

  lemma GuestAdvances(w: World, k: Key, f: Fault)
    requires k in w.workers && CellOK(k, View(w, k))
    requires w.workers[k].MakeGuest? || w.workers[k].KillGuest?
    ensures CellOK(k, View(Advance(w, k, f), k))
  {
    var s' := StoreAfter(w, k, f);
    AdvanceView(w, k, f);
    GuestCall(w, k, f);
    hide CellOK, Resumed, Advance;
    GuestStepKeepsCell(k, View(w, k), At(s', k).guest, k in Touched(w.store, s'), ReplyOf(w, k, f));
  }

  lemma PersistAdvances(w: World, k: Key, f: Fault)
    requires k in w.workers && CellOK(k, View(w, k)) && w.workers[k].Persist?
    ensures CellOK(k, View(Advance(w, k, f), k))
  {
    var s' := StoreAfter(w, k, f);
    AdvanceView(w, k, f);
    PersistCall(w, k, f);
    hide CellOK, Resumed, Advance;
    PersistKeepsCell(k, View(w, k), At(s', k).machine, k in Touched(w.store, s'), ReplyOf(w, k, f));
  }

  lemma AdvanceKeepsOwn(w: World, k: Key, f: Fault)
    requires k in w.workers && CellOK(k, View(w, k))
    ensures CellOK(k, View(Advance(w, k, f), k))
  {
    hide CellOK, View, Advance;
    var x := w.workers[k];
    if Reads(x) {
      ReadAdvances(w, k, f);
    } else if x.MakeSeed? || x.MoveSeed? || x.KillSeed? {
      SeedAdvances(w, k, f);
    } else if x.Persist? {
      PersistAdvances(w, k, f);
    } else {
      GuestAdvances(w, k, f);
    }
  }

  lemma StartKeepsCell(w: World, k: Key, j: Key)
    requires CellOK(j, View(w, j))
    ensures CellOK(j, View(Apply(w, Start(k)), j))
  {
    var c, d := View(w, j), View(Apply(w, Start(k)), j);
    if d != c {
      assert d == c.(worker := Some(ReadMachine), pending := false);
    }
  }

  lemma CrashKeepsCell(w: World, j: Key)
    requires CellOK(j, View(w, j))
    ensures CellOK(j, View(Apply(w, Crash), j))
  {
    var d := View(Apply(w, Crash), j);
    assert d == View(w, j).(worker := None, pending := d.machine.Some?);
  }

  lemma EnqueueKeepsCell(w: World, k: Key, j: Key)
    requires CellOK(j, View(w, j))
    ensures CellOK(j, View(Apply(w, Enqueue(k)), j))
  {
    MorePending(j, View(w, j), j == k);
    assert View(Apply(w, Enqueue(k)), j) == View(w, j).(pending := View(w, j).pending || j == k);
  }

  lemma WorkKeepsCell(w: World, k: Key, f: Fault, j: Key)
    requires CellOK(j, View(w, j))
    ensures CellOK(j, View(Apply(w, Work(k, f)), j))
  {
    hide CellOK, View, Advance;
    if k in w.workers {
      if j == k {
        AdvanceKeepsOwn(w, k, f);
      } else {
        AdvanceKeepsOthers(w, k, f, j);
      }
    }
  }

  // Steps of users, of KubeSwift and of the workload clusters.
  predicate External(e: Event) {
    !(e.Start? || e.Work? || e.Crash? || e.Enqueue?)
  }

  lemma ExternalKeepsCell(w: World, e: Event, j: Key)
    requires External(e) && CellOK(j, View(w, j))
    ensures CellOK(j, View(Apply(w, e), j))
  {
    hide CellOK, View, Outside, Moved;
    OutsideKeepsCell(w, e, j);
  }

  lemma StepKeepsCell(w: World, e: Event, j: Key)
    requires CellOK(j, View(w, j))
    ensures CellOK(j, View(Apply(w, e), j))
  {
    hide CellOK, View, Apply;
    if e.Start? {
      StartKeepsCell(w, e.k, j);
    } else if e.Work? {
      WorkKeepsCell(w, e.k, e.fault, j);
    } else if e.Crash? {
      CrashKeepsCell(w, j);
    } else if e.Enqueue? {
      EnqueueKeepsCell(w, e.k, j);
    } else {
      ExternalKeepsCell(w, e, j);
    }
  }

  // ---- Runs. ----

  // Machines as users create them; no reconcile has run yet.
  ghost predicate Initial(w: World) {
    && w.workers == map[] && w.reached == map[] && w.store.seeds == map[]
    && (forall k | k in w.store.machines :: KubeKey(k) && w.store.machines[k].owned == Fresh)
    && (forall k | k in w.store.guests :: GuestSpec.MachineLabelKey !in w.store.guests[k].rendered.labels)
  }

  lemma InitialInv(w: World)
    requires Initial(w)
    ensures Inv(w)
  {
  }

  lemma StepKeepsInv(w: World, e: Event)
    requires Inv(w)
    ensures Inv(Apply(w, e))
  {
    forall j
      ensures CellOK(j, View(Apply(w, e), j))
    {
      StepKeepsCell(w, e, j);
    }
  }

  lemma {:induction false} RunKeepsInv(w: World, es: seq<Event>)
    requires Inv(w)
    ensures Inv(Run(w, es))
  {
    if es != [] {
      RunKeepsInv(w, es[..|es| - 1]);
      StepKeepsInv(Run(w, es[..|es| - 1]), es[|es| - 1]);
    }
  }

  lemma InvAt(w: World, k: Key)
    requires Inv(w)
    ensures CellOK(k, View(w, k))
  {
  }

  ghost predicate Reachable(w: World) {
    exists w0, es :: Initial(w0) && w == Run(w0, es)
  }

  lemma ReachableInv(w: World)
    requires Reachable(w)
    ensures Inv(w)
  {
    var w0, es :| Initial(w0) && w == Run(w0, es);
    InitialInv(w0);
    RunKeepsInv(w0, es);
  }

  lemma ReachableOnward(w: World, es: seq<Event>)
    requires Reachable(w)
    ensures Reachable(Run(w, es))
  {
    var w0, ds :| Initial(w0) && w == Run(w0, ds);
    RunConcat(w0, ds, es);
  }

  // ---- Guarantees of every reachable world. ----

  // A machine's guest, even a terminating one, has its seed and is well formed.
  lemma GuestImpliesSeed(w: World, k: Key)
    requires Reachable(w)
    requires k in w.store.guests && Labelled(k, w.store.guests[k])
    ensures GuestSpec.WellFormed(k.name, w.store.guests[k].rendered)
    ensures w.store.guests[k].rendered.spec.seedProfileRef == k.name + "-seed"
    ensures Key(k.ns, k.name + "-seed") in w.store.seeds && SeedKey(k) in w.store.seeds
  {
    ReachableInv(w);
    assert CellOK(k, View(w, k));
  }

  // Provisioned agrees with Ready, and a provisioned machine carries what the contract asks for.
  lemma StatusConsistent(w: World, k: Key)
    requires Reachable(w) && k in w.store.machines
    ensures var o := w.store.machines[k].owned;
            && (o.provisioned == Some(true) <==> o.ready.Some? && o.ready.value.status)
            && (o.provisioned == Some(false) <==> o.ready.Some? && !o.ready.value.status)
            && (o.provisioned == Some(true) ==> SoleInternalIP(o.addresses) && DecodeProviderID(o.providerID) == Some(k))
  {
    ReachableInv(w);
    assert CellOK(k, View(w, k));
    ProviderIDRoundTrip(k);
  }

  // With no work outstanding, the status is what the guest read last gives; and if that guest
  // carries the machine's label, it is the guest as it is now.
  lemma StatusMirrorsGuest(w: World, k: Key)
    requires Reachable(w) && k in w.store.machines && !w.store.machines[k].deleting
    requires k !in w.queue && k !in w.workers && k in w.reached
    ensures Mirrors(w.store.machines[k].owned, w.reached[k].status)
    ensures Labelled(k, w.reached[k]) ==> k in w.store.guests && w.store.guests[k] == w.reached[k]
  {
    ReachableInv(w);
    assert CellOK(k, View(w, k));
  }
}
