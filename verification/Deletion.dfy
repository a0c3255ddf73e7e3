/** Deleting machines makes progress: a rank that no step raises, that every real step of a
    deletion lowers, and at whose end one undisturbed reconcile lets the object go. */
module Deletion {
  import opened Prelude
  import opened Names
  import opened MachineObject
  import opened ApiServer
  import opened Controller
  import opened Protocol
  import opened Safety
  import opened Lifecycle
  import opened Sequential

  // The machine object is being deleted, or gone.
  predicate Doomed(c: Cell) {
    c.machine.Some? ==> c.machine.value.deleting
  }

  // A reconcile that read the object before its deletion was requested may still create things.
  predicate Stale(c: Cell) {
    c.worker.Some? && !Harmless(c.worker.value)
  }

  // Guest absent 0, terminating 1, live 2; a stale reconcile can still make one.
  function Rank(c: Cell): nat {
    if Stale(c) then 3
    else if c.guest.None? then 0
    else if c.guest.value.terminating then 1
    else 2
  }

  // Nobody makes the machine or a guest of its name from outside.
  predicate Undisturbed(e: Event, k: Key) {
    (e.CreateMachine? || e.ForeignGuest?) ==> e.k != k
  }

  // ---- One machine, one step. ----

  lemma OnlyStaleMakes(k: Key, c: Cell, x: Job)
    requires JobOK(k, c, x) && x.MakeGuest?
    ensures !Harmless(x)
  {
  }

  lemma ReadLowersRank(w: World, k: Key, f: Fault)
    requires k in w.workers && Reads(w.workers[k]) && Doomed(View(w, k))
    ensures Doomed(View(Advance(w, k, f), k)) && Rank(View(Advance(w, k, f), k)) <= Rank(View(w, k))
  {
    hide Advance, StoreAfter, ReplyOf, Resume;
    AdvanceView(w, k, f);
    ReadCall(w, k, f);
    if Harmless(w.workers[k]) {
      HarmlessResumes(k, View(w, k), w.workers[k], ReplyOf(w, k, f));
    }
  }

  lemma HarmlessWriteResumes(k: Key, x: Job, r: Reply)
    requires !Reads(x) && Harmless(x) && !x.MakeGuest?
    ensures var p := Resume(k, x, r); p.Continue? ==> Harmless(p.job)
  {
    hide Judge, Mirror;
  }

  lemma WriteLowersRank(w: World, k: Key, f: Fault)
    requires k in w.workers && !Reads(w.workers[k]) && JobOK(k, View(w, k), w.workers[k]) && Doomed(View(w, k))
    ensures Doomed(View(Advance(w, k, f), k)) && Rank(View(Advance(w, k, f), k)) <= Rank(View(w, k))
  {
    hide Advance, StoreAfter, ReplyOf, JobOK, Resume;
    var c, x := View(w, k), w.workers[k];
    AdvanceView(w, k, f);
    CallWrites(w, k, f);
    if x.MakeGuest? {
      OnlyStaleMakes(k, c, x);
    } else if Harmless(x) {
      HarmlessWriteResumes(k, x, ReplyOf(w, k, f));
    }
    if x.Persist? {
      PersistCall(w, k, f);
    } else if x.KillGuest? {
      GuestCall(w, k, f);
    }
  }

  lemma WorkLowersRank(w: World, k: Key, f: Fault)
    requires k in w.workers && JobOK(k, View(w, k), w.workers[k]) && Doomed(View(w, k))
    ensures Doomed(View(Advance(w, k, f), k)) && Rank(View(Advance(w, k, f), k)) <= Rank(View(w, k))
  {
    hide Advance, JobOK, Rank, Doomed;
    if Reads(w.workers[k]) {
      ReadLowersRank(w, k, f);
    } else {
      WriteLowersRank(w, k, f);
    }
  }

  lemma OthersSpareRank(w: World, j: Key, f: Fault, k: Key)
    requires j in w.workers && j != k
    ensures View(Advance(w, j, f), k) == View(w, k).(pending := View(Advance(w, j, f), k).pending)
  {
    CallFrame(w.store, j, w.workers[j], f, k);
  }

  lemma OutsideSparesRank(w: World, e: Event, k: Key)
    requires External(e) && Undisturbed(e, k) && Doomed(View(w, k))
    ensures var d := View(Apply(w, e), k); Doomed(d) && Rank(d) <= Rank(View(w, k))
  {
    hide OutsideMachines, OutsideGuests, Touched, Harmless;
    OutsideSparesMachine(w.store.machines, e, k);
    OutsideSparesGuest(w.store.guests, e, k);
  }

  lemma OutsideSparesMachine(ms: map<Key, Machine>, e: Event, k: Key)
    requires Undisturbed(e, k) && (k in ms ==> ms[k].deleting)
    ensures var ms' := OutsideMachines(ms, e); k in ms' ==> ms'[k].deleting
  {
  }

  lemma OutsideSparesGuest(gs: map<Key, Guest>, e: Event, k: Key)
    requires Undisturbed(e, k)
    ensures var gs' := OutsideGuests(gs, e); k in gs' ==> k in gs && (gs[k].terminating ==> gs'[k].terminating)
  {
  }

  lemma RankNeverRises(w: World, e: Event, k: Key)
    requires Inv(w) && Doomed(View(w, k)) && Undisturbed(e, k)
    ensures var d := View(Apply(w, e), k); Doomed(d) && Rank(d) <= Rank(View(w, k))
  {
    if External(e) {
      hide Inv, Apply, Rank;
      OutsideSparesRank(w, e, k);
    } else if e.Work? && e.k in w.workers {
      hide Advance, Rank;
      assert CellOK(k, View(w, k));
      if e.k == k {
        WorkLowersRank(w, k, e.fault);
      } else {
        OthersSpareRank(w, e.k, e.fault, k);
        RankIgnoresPending(View(w, k), View(Advance(w, e.k, e.fault), k).pending);
      }
    }
  }

  lemma RankIgnoresPending(c: Cell, p: bool)
    ensures Rank(c.(pending := p)) == Rank(c) && Doomed(c.(pending := p)) == Doomed(c)
  {
  }

  // The steps that bring a deletion forward.
  predicate Progresses(w: World, e: Event, k: Key) {
    var c := View(w, k);
    match e
    case GuestGone(j) => j == k && c.guest.Some? && c.guest.value.terminating && !Stale(c)
    case Work(j, f) =>
      && j == k && k in w.workers
      && if Stale(c) then Resume(k, w.workers[k], ReplyOf(w, k, f)).Finish?
         else w.workers[k].KillGuest? && ReplyOf(w, k, f) == Done && c.guest.Some? && !c.guest.value.terminating
    case _ => false
  }

  lemma ProgressLowersRank(w: World, e: Event, k: Key)
    requires Progresses(w, e, k)
    ensures Rank(View(Apply(w, e), k)) < Rank(View(w, k))
  {
    if e.Work? {
      AdvanceView(w, k, e.fault);
      if !Stale(View(w, k)) {
        KillReplyDone(w, k, e.fault);
      }
      hide Advance, StoreAfter, ReplyOf;
    }
  }

  lemma KillReplyDone(w: World, k: Key, f: Fault)
    requires k in w.workers && w.workers[k].KillGuest? && ReplyOf(w, k, f) == Done && k in w.store.guests
    ensures k in StoreAfter(w, k, f).guests && StoreAfter(w, k, f).guests[k].terminating
    ensures Resume(k, w.workers[k], Done) == Continue(Persist(w.workers[k].c, None, Later))
  {
  }

  // ---- A fleet of machines, whole runs. ----

  function FleetRank(w: World, fleet: seq<Key>): nat {
    if fleet == [] then 0 else Rank(View(w, fleet[0])) + FleetRank(w, fleet[1..])
  }

  predicate AllDoomed(w: World, fleet: seq<Key>) {
    forall k | k in fleet :: Doomed(View(w, k))
  }

  predicate LeftAlone(e: Event, fleet: seq<Key>) {
    forall k | k in fleet :: Undisturbed(e, k)
  }

  lemma {:induction false} FleetStep(w: World, e: Event, fleet: seq<Key>)
    requires Inv(w) && AllDoomed(w, fleet) && LeftAlone(e, fleet)
    ensures AllDoomed(Apply(w, e), fleet)
    ensures FleetRank(Apply(w, e), fleet) <= FleetRank(w, fleet)
    ensures (exists k :: k in fleet && Progresses(w, e, k)) ==> FleetRank(Apply(w, e), fleet) < FleetRank(w, fleet)
  {
    hide Inv, Apply, Rank, Doomed, Progresses, View, Undisturbed;
    if fleet != [] {
      var k, rest := fleet[0], fleet[1..];
      RankNeverRises(w, e, k);
      if Progresses(w, e, k) {
        ProgressLowersRank(w, e, k);
      }
      FleetStep(w, e, rest);
      assert forall j :: j in fleet <==> j == k || j in rest;
    }
  }

  // However reconciles, failures, crashes and KubeSwift interleave, the rank sum of a fleet
  // being deleted never rises.
  lemma {:induction false} FleetRankNeverRises(w: World, es: seq<Event>, fleet: seq<Key>)
    requires Inv(w) && AllDoomed(w, fleet)
    requires forall e | e in es :: LeftAlone(e, fleet)
    ensures AllDoomed(Run(w, es), fleet) && FleetRank(Run(w, es), fleet) <= FleetRank(w, fleet)
  {
    if es != [] {
      var front, e := es[..|es| - 1], es[|es| - 1];
      assert e in es;
      FleetRankNeverRises(w, front, fleet);
      RunKeepsInv(w, front);
      FleetStep(Run(w, front), e, fleet);
    }
  }

  // At most FleetRank steps of a run can be steps of progress.
  function ProgressCount(w: World, es: seq<Event>, fleet: seq<Key>): nat {
    if es == [] then 0
    else
      var front, e := es[..|es| - 1], es[|es| - 1];
      ProgressCount(w, front, fleet) + if AnyProgress(Run(w, front), e, fleet) then 1 else 0
  }

  predicate AnyProgress(w: World, e: Event, fleet: seq<Key>) {
    exists k :: k in fleet && Progresses(w, e, k)
  }

  lemma {:induction false} ProgressIsBounded(w: World, es: seq<Event>, fleet: seq<Key>)
    requires Inv(w) && AllDoomed(w, fleet)
    requires forall e | e in es :: LeftAlone(e, fleet)
    ensures FleetRank(Run(w, es), fleet) + ProgressCount(w, es, fleet) <= FleetRank(w, fleet)
    ensures FleetRank(w, fleet) <= 3 * |fleet|
  {
    RankBound(w, fleet);
    if es != [] {
      var front, e := es[..|es| - 1], es[|es| - 1];
      assert e in es;
      ProgressIsBounded(w, front, fleet);
      FleetRankNeverRises(w, front, fleet);
      RunKeepsInv(w, front);
      FleetStep(Run(w, front), e, fleet);
    }
  }

  lemma {:induction false} RankBound(w: World, fleet: seq<Key>)
    ensures FleetRank(w, fleet) <= 3 * |fleet|
  {
    if fleet != [] {
      RankBound(w, fleet[1..]);
    }
  }

  // ---- The end. ----

  // The controller can work on the machine: owner and cluster are there, nothing is paused.
  predicate Workable(s: Store, k: Key) {
    k in s.machines && Admit(s.env, k, s.machines[k]).Admitted?
  }

  predicate CleanedUp(s: Store, k: Key) {
    && k !in s.guests && SeedKey(k) !in s.seeds
    && (k in s.machines ==> !s.machines[k].owned.finalizer)
  }

  lemma DeletedRound(s: Store, k: Key)
    requires Workable(s, k) && s.machines[k].deleting
    ensures var e := Reconciled(s, k);
            && e.store.env == s.env
            && (k !in s.guests ==> CleanedUp(e.store, k))
            && (k in e.store.machines ==> e.store.machines[k].deleting)
            && (k in s.guests ==> e.verdict == Later && k in e.store.guests && e.store.guests[k].terminating)
            && (k in s.guests && (s.machines[k].owned.finalizer || s.machines[k].otherFinalizers) ==>
                  k in e.store.machines && e.store.machines[k] == s.machines[k])
  {
  }

  // From any world with no reconcile of k in flight: a reconcile, the guest's termination, and
  // another reconcile finish the deletion of a machine whose finalizer was stored, exactly when
  // the controller can work on it.
  lemma DeletionCompletes(w: World, k: Key)
    requires k !in w.workers && k in w.queue && k in w.store.machines
    requires w.store.machines[k].deleting && w.store.machines[k].owned.finalizer
    ensures CleanedUp(Run(w, Round(k) + [GuestGone(k)] + Round(k)).store, k) <==> Workable(w.store, k)
  {
    hide Run, Round, Workable, CleanedUp;
    if Workable(w.store, k) {
      WorkableCompletes(w, k);
    } else {
      UnworkableWaits(w, k);
    }
  }

  lemma UnworkableWaits(w: World, k: Key)
    requires k !in w.workers && k in w.queue && k in w.store.machines
    requires !Workable(w.store, k) && w.store.machines[k].owned.finalizer
    ensures !CleanedUp(Run(w, Round(k) + [GuestGone(k)] + Round(k)).store, k)
  {
    hide Reconciled, Run, Round, Apply, Workable;
    var w1 := Run(w, Round(k));
    RoundReconciles(w, k);
    TurnedAway(w.store, k);
    var w2 := Apply(w1, GuestGone(k));
    RunSnoc(w, Round(k), GuestGone(k));
    RunConcat(w, Round(k) + [GuestGone(k)], Round(k));
    GuestGoneStep(w1, k);
    StillUnworkable(w.store, w2.store, k);
    if k in w2.queue {
      RoundReconciles(w2, k);
      TurnedAway(w2.store, k);
    } else {
      IdleRound(w2, k);
    }
  }

  lemma TurnedAway(s: Store, k: Key)
    requires !Workable(s, k)
    ensures Reconciled(s, k).store == s
  {
  }

  lemma StillUnworkable(s: Store, t: Store, k: Key)
    requires !Workable(s, k) && t == s.(guests := t.guests)
    ensures !Workable(t, k)
  {
  }

  lemma WorkableCompletes(w: World, k: Key)
    requires k !in w.workers && k in w.queue
    requires Workable(w.store, k) && w.store.machines[k].deleting && w.store.machines[k].owned.finalizer
    ensures CleanedUp(Run(w, Round(k) + [GuestGone(k)] + Round(k)).store, k)
  {
    hide Reconciled, Run, Round, Apply;
    var w1 := Run(w, Round(k));
    RoundReconciles(w, k);
    DeletedRound(w.store, k);
    var w2 := Apply(w1, GuestGone(k));
    RunSnoc(w, Round(k), GuestGone(k));
    RunConcat(w, Round(k) + [GuestGone(k)], Round(k));
    GuestGoneStep(w1, k);
    if k in w2.queue {
      RoundReconciles(w2, k);
      if Workable(w2.store, k) && w2.store.machines[k].deleting {
        DeletedRound(w2.store, k);
      } else {
        ReconciledElsewhere(w2.store, k);
      }
    } else {
      IdleRound(w2, k);
    }
  }

  lemma GuestGoneStep(w: World, k: Key)
    ensures var v := Apply(w, GuestGone(k));
            && v.store == w.store.(guests := v.store.guests)
            && v.workers == w.workers && w.queue <= v.queue
            && (k in w.store.guests && w.store.guests[k].terminating ==> k !in v.store.guests)
            && (k !in w.store.guests ==> v.store == w.store)
  {
  }

  lemma IdleRound(w: World, k: Key)
    requires k !in w.workers && k !in w.queue
    ensures Run(w, Round(k)) == w
  {
    RunCons(w, Start(k), Alone(k, 13));
    IdleAlone(w, k, 13);
  }

  lemma ReconciledElsewhere(s: Store, k: Key)
    requires CleanedUp(s, k) && !(Workable(s, k) && s.machines[k].deleting)
    requires k in s.machines ==> s.machines[k].deleting
    ensures CleanedUp(Reconciled(s, k).store, k)
  {
  }
}
