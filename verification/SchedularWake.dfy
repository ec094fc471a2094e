/**
 No lost wake, end to end: once `poll` has answered Pending and every thread is idle, a task in the
 queue means that the parent's waker was called since that poll began to register it.
 */
module SchedularWake {
  import opened Wrappers
  import opened Schedular
  import opened SchedularPlaces
  import opened SchedularInv
  import opened SchedularTasks
  import opened SchedularSafety
  import Q = Queue
  import W = AtomicWaker
  import QueueRuns
  import AtomicWakerRuns

  /** Some task is in the queue. */
  ghost predicate HasEntry(s: Sys) {
    exists t: TaskId :: InChain(s.q, Q.Item(t))
  }

  /** Thread `u` put its task in the queue, or is about to complete that, and will signal after it. */
  predicate WillSignal(s: Sys, u: Tid) {
    && u in s.ops
    && s.ops[u].kind == Wake
    && (s.ops[u].Signal? || (s.ops[u].Push? && u in s.q.producers && s.q.producers[u].Swapped?))
  }

  ghost predicate SomeWillSignal(s: Sys) {
    exists u: Tid :: WillSignal(s, u)
  }

  /** The parent has been, or will be, told about what is in the queue. */
  ghost predicate Told(s: Sys) {
    s.w.woken || s.w.signalled || SomeWillSignal(s)
  }

  predicate InPoll(b: Base) {
    b.Registering? || b.Popping? || b.Got? || b.Driving? || b.Removing? || b.Dropping?
  }

  /** A cancel did its fetch_or and goes on to push. */
  predicate CancelPushes(s: Sys) {
    && CONSUMER in s.ops
    && s.ops[CONSUMER].kind == Cancel
    && (s.ops[CONSUMER].Waking? || s.ops[CONSUMER].Store? || s.ops[CONSUMER].Push?)
  }

  ghost predicate WakeInv(s: Sys) {
    && (InPoll(s.base) || s.hist.pending ==> s.w.current.Some?)
    && (s.base.Dropping? && s.base.returning ==> s.w.woken)
    && (InPoll(s.base) ==> !s.hist.pending)
    && (s.hist.pending ==>
          && s.base.Out?
          && (Counting(s) ==> s.hist.outside)
          && (CancelPushes(s) ==> s.w.signalled)
          && (!s.hist.outside && HasEntry(s) ==> Told(s)))
  }

  /** Only a `register` starts the record anew. */
  lemma WakerRecord(w: W.State, a: W.Action)
    requires W.Enabled(w, a) && !a.Begin?
    ensures w.woken ==> W.Step(w, a).woken
    ensures w.signalled ==> W.Step(w, a).signalled
    ensures a.FetchOr? ==> W.Step(w, a).signalled
    ensures W.Step(w, a).current == w.current
  {
  }

  /** An operation of thread `u` that keeps the queue's entries keeps what others will signal. */
  lemma OthersWillSignal(s: Sys, s': Sys, u: Tid)
    requires KeepsKind(s, s', u) && s'.q == s.q
    requires WillSignal(s, u) ==> WillSignal(s', u) || s'.w.signalled
    ensures SomeWillSignal(s) ==> SomeWillSignal(s') || s'.w.signalled
  {
    if v: Tid :| WillSignal(s, v) {
      if v != u {
        Others(s.ops, s'.ops, u, v);
        assert WillSignal(s', v);
      }
    }
  }

  lemma SignalWake(s: Sys, u: Tid)
    requires WakeInv(s) && Sync(s) && OpEnabled(s, u) && s.ops[u].Signal?
    ensures WakeInv(OpEffect(s, u))
  {
    assert SyncAt(s, u);
    WakerRecord(s.w, W.FetchOr(u));
    hide W.Step, W.Enabled, Told, HasEntry;
    var s' := OpEffect(s, u);
    assert s'.w.signalled;
    assert Told(s') by { SignalledIsTold(s'); }
  }

  lemma SignalledIsTold(s: Sys)
    requires s.w.signalled || s.w.woken
    ensures Told(s)
  {
  }

  lemma WakingShape(s: Sys, u: Tid)
    requires OpEnabled(s, u) && s.ops[u].Waking?
    ensures OpEffect(s, u) == s.(w := W.Step(s.w, WakeAction(s, u)), ops := OpEffect(s, u).ops)
    ensures Counting(OpEffect(s, u)) ==> Counting(s)
    ensures CancelPushes(OpEffect(s, u)) ==> CancelPushes(s)
  {
    hide W.Step, W.Enabled, WakeAction;
  }

  lemma WakingWake(s: Sys, u: Tid)
    requires WakeInv(s) && Sync(s) && OpEnabled(s, u) && s.ops[u].Waking?
    ensures WakeInv(OpEffect(s, u))
  {
    WakerRecord(s.w, WakeAction(s, u));
    var s' := OpEffect(s, u);
    OpKeepsKind(s, u);
    WakingShape(s, u);
    SameEntry(s, s');
    hide W.Step, W.Enabled, HasEntry, WakeAction, SomeWillSignal, OpEffect, OpEnabled, Sync, Counting, CancelPushes;
    OthersWillSignal(s, s', u);
  }

  lemma SameEntry(s: Sys, s': Sys)
    requires s'.q == s.q
    ensures HasEntry(s') <==> HasEntry(s)
  {
  }

  lemma PlainWake(s: Sys, u: Tid)
    requires WakeInv(s) && Sync(s) && OpEnabled(s, u) && (s.ops[u].TryQueue? || s.ops[u].Upgrade? || s.ops[u].Release?)
    ensures WakeInv(OpEffect(s, u))
  {
    assert SyncAt(s, u);
    var s' := OpEffect(s, u);
    OpKeepsKind(s, u);
    hide HasEntry, QueueHeld, SomeWillSignal;
    OthersWillSignal(s, s', u);
    SameEntry(s, s');
    PlainKeepsRecord(s, u);
    hide OpEffect, OpEnabled;
  }

  lemma PlainKeepsRecord(s: Sys, u: Tid)
    requires OpEnabled(s, u) && (s.ops[u].TryQueue? || s.ops[u].Upgrade? || s.ops[u].Release?)
    ensures var s' := OpEffect(s, u);
      s'.hist == s.hist && s'.base == s.base && s'.w == s.w && s'.q == s.q && s'.frames == s.frames
  {
    hide QueueHeld;
  }

  /** Pushing threads other than `u` are where they were. */
  lemma OthersStillPush(s: Sys, s': Sys, u: Tid)
    requires KeepsKind(s, s', u)
    requires forall v :: v != u && v in s.q.producers ==> v in s'.q.producers && s'.q.producers[v] == s.q.producers[v]
    requires WillSignal(s, u) ==> WillSignal(s', u)
    ensures SomeWillSignal(s) ==> SomeWillSignal(s')
  {
    if v: Tid :| WillSignal(s, v) {
      if v != u {
        Others(s.ops, s'.ops, u, v);
        assert WillSignal(s', v);
      }
    }
  }

  /** A step of the queue that adds nothing to it gives it no first entry. */
  lemma NoNewEntry(s: Sys, s': Sys, a: Q.Action)
    requires Q.Inv(s.q) && Q.Enabled(s.q, a) && s'.q == Q.Step(s.q, a) && Added(s.q, a).None?
    ensures HasEntry(s') ==> HasEntry(s)
  {
    ChainStep(s.q, a);
    hide Q.Step, Q.Enabled, Q.Inv, InChain;
    if HasEntry(s') {
      var t: TaskId :| InChain(s'.q, Q.Item(t));
      assert InChain(s.q, Q.Item(t));
    }
  }

  lemma StoreWake(s: Sys, u: Tid)
    requires WakeInv(s) && Sync(s) && Components(s) && OpEnabled(s, u) && s.ops[u].Store?
    ensures WakeInv(OpEffect(s, u))
  {
    assert SyncAt(s, u);
    var s' := OpEffect(s, u);
    var a := Q.Store(u, s.ops[u].task);
    OpKeepsKind(s, u);
    QueuePlaces(s.q, a);
    NoNewEntry(s, s', a);
    hide Q.Step, Q.Enabled, Q.Inv, W.Inv, HasEntry, SomeWillSignal;
    OthersStillPush(s, s', u);
  }

  lemma SwapWake(s: Sys, u: Tid)
    requires WakeInv(s) && Sync(s) && Components(s) && OpEnabled(s, u) && s.ops[u].Push?
    requires s.q.producers[u].Cleared?
    ensures WakeInv(OpEffect(s, u))
  {
    assert SyncAt(s, u);
    var s' := OpEffect(s, u);
    OpKeepsKind(s, u);
    QueuePlaces(s.q, Q.Swap(u));
    hide Q.Step, Q.Enabled, Q.Inv, W.Inv, HasEntry;
    if s.ops[u].kind == Wake {
      assert WillSignal(s', u);
    }
  }

  lemma LinkWake(s: Sys, u: Tid)
    requires WakeInv(s) && Sync(s) && Components(s) && OpEnabled(s, u) && s.ops[u].Push?
    requires s.q.producers[u].Swapped?
    ensures WakeInv(OpEffect(s, u))
  {
    assert SyncAt(s, u);
    var s' := OpEffect(s, u);
    var a := Q.Link(u);
    OpKeepsKind(s, u);
    QueuePlaces(s.q, a);
    NoNewEntry(s, s', a);
    hide Q.Step, Q.Enabled, Q.Inv, W.Inv, HasEntry, SomeWillSignal;
    OthersStillPush(s, s', u);
  }

  lemma OpWake(s: Sys, u: Tid)
    requires WakeInv(s) && Sync(s) && Components(s) && OpEnabled(s, u)
    ensures WakeInv(OpEffect(s, u))
  {
    assert SyncAt(s, u);
    hide WakeInv, Sync, Components, OpEffect;
    match s.ops[u]
    case Signal(_, _) => SignalWake(s, u);
    case Waking(_, _) => WakingWake(s, u);
    case Store(_, _) => StoreWake(s, u);
    case Push(_, _) => if s.q.producers[u].Cleared? { SwapWake(s, u); } else { LinkWake(s, u); }
    case _ => PlainWake(s, u);
  }

  // ----- the consumer

  lemma StartWakeInv(s: Sys, a: Action)
    requires WakeInv(s) && Sync(s) && Enabled(s, a) && ChangesOps(a)
    ensures WakeInv(Step(s, a))
  {
    StartShape(s, a);
    var s' := Step(s, a);
    StartHistory(s, a);
    hide Step, Enabled, HasEntry;
    if SomeWillSignal(s) {
      var v: Tid :| WillSignal(s, v);
      assert WillSignal(s', v) by { assert SyncAt(s, v); }
    }
    SameEntry(s, s');
  }

  lemma StartHistory(s: Sys, a: Action)
    requires Enabled(s, a) && ChangesOps(a)
    ensures Step(s, a).hist.pending == s.hist.pending
    ensures Step(s, a).hist.outside == (s.hist.outside || (a.PushTask? && s.base.Out?))
    ensures a.PushTask? || (a.StartCancel? && Step(s, a).ops != s.ops) || a.EndDrop? ==> CONSUMER !in s.ops
    ensures a.StartWake? ==> a.u !in s.ops && a.u != CONSUMER
  {
    hide Q.Step, W.Step;
  }

  lemma RegisterWake(s: Sys, a: Action)
    requires WakeInv(s) && Sync(s) && Enabled(s, a) && (a.StartPoll? || a.RegisterStep?)
    ensures WakeInv(Step(s, a))
  {
    hide HasEntry, Told;
  }

  lemma EntryIsPending(s: Sys)
    requires HasEntry(s) && s.q.pos <= |s.q.order|
    ensures Q.Pending(s.q) != []
  {
    var t: TaskId :| InChain(s.q, Q.Item(t));
    Q.ItemsMembers(s.q.order[s.q.pos..], t);
  }

  /** An answer Empty while items are pending comes from a waker that will signal. */
  lemma EmptyIsTold(s: Sys, a: Q.Action)
    requires Sync(s) && Components(s) && Enabled(s, PopStep(a)) && s.base.Popping?
    requires Q.Answered(s.q, a) == Some(Q.Empty) && HasEntry(PopEffect(s, a))
    ensures SomeWillSignal(PopEffect(s, a))
  {
    QueueRuns.AnswersExplained(s.q, a);
    QueuePlaces(s.q, a);
    var s' := PopEffect(s, a);
    assert s'.q == Q.Step(s.q, a) && s'.ops == s.ops && CONSUMER !in s.ops;
    EntryIsPending(s');
    hide Q.Step, Q.Enabled, Q.Inv, W.Inv, HasEntry, PopEffect;
    var u: Tid :| u in s.q.producers && s.q.producers[u].Swapped?;
    assert SyncAt(s, u);
    assert WillSignal(s', u);
  }

  lemma PollAnswerWake(s: Sys, a: Q.Action)
    requires WakeInv(s) && Sync(s) && Enabled(s, PopStep(a)) && s.base.Popping?
    requires Q.Answered(s.q, a) == Some(Q.Empty) && HasEntry(PopEffect(s, a)) ==> SomeWillSignal(PopEffect(s, a))
    ensures WakeInv(PopEffect(s, a))
  {
    hide Q.Step, Q.Enabled, HasEntry, SomeWillSignal;
  }

  lemma ClearAnswerWake(s: Sys, a: Q.Action)
    requires WakeInv(s) && Enabled(s, PopStep(a)) && s.base.ClearPop?
    ensures WakeInv(PopEffect(s, a))
  {
    hide Q.Step, Q.Enabled, HasEntry, SomeWillSignal;
  }

  lemma PopWake(s: Sys, a: Q.Action)
    requires WakeInv(s) && Sync(s) && Components(s) && Enabled(s, PopStep(a))
    ensures WakeInv(PopEffect(s, a))
  {
    if s.base.Popping? {
      if Q.Answered(s.q, a) == Some(Q.Empty) && HasEntry(PopEffect(s, a)) {
        EmptyIsTold(s, a);
      }
      hide WakeInv, Sync, HasEntry, SomeWillSignal, PopEffect, Enabled, Components;
      PollAnswerWake(s, a);
    } else {
      hide WakeInv, Sync, PopEffect, Enabled, Components;
      ClearAnswerWake(s, a);
    }
  }

  lemma RestWake(s: Sys, a: Action)
    requires WakeInv(s) && Sync(s) && Enabled(s, a) && Rest(a) && !ChangesOps(a)
    ensures WakeInv(Step(s, a))
  {
    RestShape(s, a);
    var s' := Step(s, a);
    RestHistory(s, a);
    SameEntry(s, s');
    hide Step, Enabled, HasEntry;
    if SomeWillSignal(s) {
      var v: Tid :| WillSignal(s, v);
      assert WillSignal(s', v);
    }
  }

  /** How the remaining steps move the consumer and the history of polls. */
  ghost predicate PollMove(s: Sys, s': Sys) {
    && (s.w.woken ==> s'.w.woken)
    && (InPoll(s'.base) ==> InPoll(s.base))
    && (s'.base.Dropping? && s'.base.returning ==> s'.w.woken || s'.base == s.base)
    && (s'.hist.pending ==> s'.base.Out?)
    && (s'.hist.pending && !s.hist.pending ==> s.base.Dropping? && s.base.returning)
    && (s'.hist.pending && s.hist.pending ==> s'.hist.outside == s.hist.outside && s'.base == s.base)
  }

  lemma RestHistory(s: Sys, a: Action)
    requires WakeInv(s) && Enabled(s, a) && Rest(a) && !ChangesOps(a)
    ensures PollMove(s, Step(s, a))
  {
    hide Q.Step, W.Step, HasEntry, Told, Q.Enabled, W.Enabled, CancelPushes, Counting;
    assert s.hist.pending ==> s.base.Out?;
    assert s.base.Dropping? && s.base.returning ==> s.w.woken;
    hide WakeInv, Enabled;
  }

  lemma WakeStep(s: Sys, a: Action)
    requires WakeInv(s) && Inv(s) && Enabled(s, a)
    ensures WakeInv(Step(s, a))
  {
    hide WakeInv, Sync, Components, TaskOk, Ledger, OpEffect, PopEffect;
    match a
    case OpStep(u) => OpWake(s, u);
    case PopStep(qa) => PopWake(s, qa);
    case StartPoll(_) => RegisterWake(s, a);
    case RegisterStep(_) => RegisterWake(s, a);
    case _ => if ChangesOps(a) { StartWakeInv(s, a); } else { RestWake(s, a); }
  }

  // ----- the theorem

  /** No thread is in the middle of an operation. */
  predicate Idle(s: Sys) {
    s.ops == map[] && s.frames == [] && s.base.Out?
  }

  /**
   After a poll that answered Pending, with no thread mid-operation and nothing pushed since from
   outside, any task in the queue means that the parent was woken since that poll's register.
   */
  lemma NoLostWake(s: Sys)
    requires Inv(s) && WakeInv(s) && Idle(s)
    requires s.hist.pending && !s.hist.outside && HasEntry(s)
    ensures s.w.woken
  {
    if s.w.signalled {
      assert s.w.wakers == map[] by {
        forall u: Tid ensures u !in s.w.wakers { assert SyncAt(s, u); }
      }
      AtomicWakerRuns.QuietMeansWoken(s.w);
    }
  }
}
