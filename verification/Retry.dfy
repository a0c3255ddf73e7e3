/** Nothing that fails is forgotten: a reconcile in which a call failed is tried again, with one
    exception, and that one exactly. */
module Retry {
  import opened Prelude
  import opened Names
  import opened ApiServer
  import opened Controller
  import opened Protocol
  import opened Safety
  import NodeIdentity

  // The reconcile of k is over and its key is queued again, or it has only its patch left and
  // will queue its key again whatever comes of that.
  predicate WillRetry(w: World, k: Key) {
    if k in w.workers then w.workers[k].Persist? && w.workers[k].verdict != Forget else k in w.queue
  }

  // The call of the worker on k has failed, in whatever way.
  predicate CallFails(w: World, k: Key, f: Fault) {
    k in w.workers && ReplyOf(w, k, f) == Failed
  }

  lemma FailureResumes(k: Key, x: Job)
    ensures match Resume(k, x, Failed)
            case Finish(verdict, _) => verdict != Forget <==> !x.ReadCluster?
            case Continue(y) => !x.ReadCluster? && y.Persist? && y.verdict != Forget
  {
  }

  // After a failed call the key is pending, or will be after the patch, exactly when the call
  // that failed was not the read of the Cluster: any error there counts as a missing label.
  lemma FailedCallIsRetried(w: World, k: Key, f: Fault)
    requires CallFails(w, k, f)
    ensures w.workers[k].ReadCluster? ==> k !in Advance(w, k, f).workers
    ensures WillRetry(Advance(w, k, f), k) <==> !w.workers[k].ReadCluster? || k in w.queue
  {
    FailureResumes(k, w.workers[k]);
    if w.workers[k].ReadCluster? {
      FailedReadTouchesNothing(w, k, f);
    }
    hide Resume, Exec, NextCall;
  }

  lemma FailedReadTouchesNothing(w: World, k: Key, f: Fault)
    requires k in w.workers && w.workers[k].ReadCluster?
    ensures StoreAfter(w, k, f) == w.store && Touched(w.store, w.store) == {}
  {
  }

  // What follows only makes it more certain: whatever others do meanwhile and whatever becomes
  // of the patch, the reconcile ends with its key queued.
  lemma {:induction false} RetryStays(w: World, es: seq<Event>, k: Key)
    requires WillRetry(w, k)
    requires forall e | e in es :: NodeIdentity.Waits(e, k) && e != Start(k)
    ensures WillRetry(Run(w, es), k)
    ensures Lookup(Run(w, es).workers, k) == Lookup(w.workers, k)
  {
    hide Apply;
    if es != [] {
      var front, e := es[..|es| - 1], es[|es| - 1];
      assert e in es && forall d | d in front :: d in es;
      RetryStays(w, front, k);
      WaitStep(Run(w, front), e, k);
    }
  }

  lemma WaitStep(w: World, e: Event, k: Key)
    requires WillRetry(w, k) && NodeIdentity.Waits(e, k) && e != Start(k)
    ensures WillRetry(Apply(w, e), k) && Lookup(Apply(w, e).workers, k) == Lookup(w.workers, k)
  {
    if e.Work? && e.k in w.workers {
      QueueGrows(w, e.k, e.fault);
      NodeIdentity.OthersKeepWorker(w, e.k, e.fault, k);
      hide Advance;
    }
  }

  lemma QueueGrows(w: World, k: Key, f: Fault)
    requires k in w.workers
    ensures w.queue <= Advance(w, k, f).queue
  {
    hide Resume, Exec, NextCall, Touched;
  }

  lemma PatchEnds(w: World, k: Key, f: Fault)
    requires k in w.workers && w.workers[k].Persist? && w.workers[k].verdict != Forget
    ensures k !in Advance(w, k, f).workers && k in Advance(w, k, f).queue
  {
    hide Exec, NextCall, Touched;
  }

  // The whole of it: a call fails, others act as they like, the patch works or does not, and the
  // key is queued.
  lemma FailureEndsQueued(w: World, k: Key, f: Fault, es: seq<Event>, patch: Fault)
    requires CallFails(w, k, f) && !w.workers[k].ReadCluster?
    requires forall e | e in es :: NodeIdentity.Waits(e, k) && e != Start(k)
    ensures var v := Apply(Run(Apply(w, Work(k, f)), es), Work(k, patch));
            k !in v.workers && k in v.queue
  {
    hide Advance, Run;
    FailedCallIsRetried(w, k, f);
    RetryStays(Advance(w, k, f), es, k);
    var v := Run(Advance(w, k, f), es);
    if k in v.workers {
      PatchEnds(v, k, patch);
    }
  }
}
