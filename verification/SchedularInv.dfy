/**
 The inductive invariant of the scheduler: threads agree with the micro-states of the queue and the
 atomic waker, a task has at most one claim to a queue entry, and task states agree with the all-list.
 */
module SchedularInv {
  import opened Schedular
  import Q = Queue
  import W = AtomicWaker

  // ----- operations and micro-states agree

  ghost predicate SyncAt(s: Sys, u: Tid) {
    && (u in s.q.producers <==> u in s.ops && s.ops[u].Push?)
    && (u in s.q.producers ==> s.q.producers[u].node == Q.Item(s.ops[u].task))
    && (u in s.w.wakers <==> u in s.ops && s.ops[u].Waking?)
    && (u in s.ops ==> (u == CONSUMER <==> s.ops[u].kind != Wake))
    && (u in s.ops && s.ops[u].kind == New ==> s.ops[u].Store? || s.ops[u].Push?)
  }

  predicate UserBase(b: Base) {
    b.Out? || b.Driving? || b.Removing? || b.ClearRemoving?
  }

  ghost predicate BaseSync(s: Sys) {
    && (s.q.pop != Q.Outside ==> s.base.Popping? || s.base.ClearPop?)
    && (s.w.register.Idle? <==> !s.base.Registering?)
    && (CONSUMER in s.ops || s.frames != [] ==> UserBase(s.base))
    && (CONSUMER in s.ops && s.ops[CONSUMER].kind == New ==> s.frames == [] && (s.base.Out? || s.base.Driving?))
  }

  ghost predicate Sync(s: Sys) {
    && (forall u :: SyncAt(s, u))
    && BaseSync(s)
  }

  lemma SyncSame(s: Sys, s': Sys)
    requires Sync(s) && s'.q.producers == s.q.producers && s'.w.wakers == s.w.wakers && s'.ops == s.ops
    ensures forall u :: SyncAt(s', u)
  {
    forall u ensures SyncAt(s', u) { assert SyncAt(s, u); }
  }

  /** What a step of the queue does to the places of its threads. */
  lemma QueuePlaces(q: Q.State, a: Q.Action)
    requires Q.Enabled(q, a)
    ensures Q.Step(q, a).producers ==
            match a
            case Store(t, id) => q.producers[t := Q.Cleared(Q.Item(id))]
            case Swap(t) => q.producers[t := Q.Swapped(q.producers[t].node, q.head, |q.order|)]
            case Link(t) => q.producers - {t}
            case _ => q.producers
    ensures a.Swap? || a.Link? ==> a.t in q.producers
    ensures !IsPopAction(a) ==> Q.Step(q, a).pop == q.pop
    ensures Q.Answered(q, a).Some? ==> Q.Step(q, a).pop == Q.Outside && IsPopAction(a)
  {
  }

  /** What a step of a waking thread does to the places of the atomic waker's threads. */
  lemma WakerPlaces(w: W.State, a: W.Action, u: Tid)
    requires W.Enabled(w, a) && a in {W.FetchOr(u), W.TakeCell(u), W.FetchAnd(u), W.Call(u)}
    ensures W.Step(w, a).register == w.register
    ensures W.Step(w, a).wakers - {u} == w.wakers - {u}
  {
  }

  lemma Others<T>(m: map<Tid, T>, m': map<Tid, T>, u: Tid, v: Tid)
    requires m - {u} == m' - {u} && u != v
    ensures v in m <==> v in m'
    ensures v in m ==> m[v] == m'[v]
  {
    assert v in m <==> v in m - {u};
    assert v in m' <==> v in m' - {u};
    assert v in m ==> m[v] == (m - {u})[v] && m'[v] == (m' - {u})[v];
  }

  /** An operation that wakes keeps the threads in step. */
  lemma SignalSync(s: Sys, u: Tid, v: Tid)
    requires SyncAt(s, u) && SyncAt(s, v) && OpEnabled(s, u) && s.ops[u].Signal?
    ensures SyncAt(OpEffect(s, u), v)
    ensures OpEffect(s, u).q == s.q && OpEffect(s, u).w.register == s.w.register
    ensures OpEffect(s, u).base == s.base && OpEffect(s, u).frames == s.frames
  {
    hide Q.Step, Q.Enabled, W.Step, W.Enabled;
    WakerPlaces(s.w, W.FetchOr(u), u);
    if u != v {
      Others(s.w.wakers, W.Step(s.w, W.FetchOr(u)).wakers, u, v);
    }
  }

  lemma WakingSync(s: Sys, u: Tid, v: Tid)
    requires SyncAt(s, u) && SyncAt(s, v) && OpEnabled(s, u) && s.ops[u].Waking?
    ensures SyncAt(OpEffect(s, u), v)
    ensures OpEffect(s, u).q == s.q && OpEffect(s, u).w.register == s.w.register
    ensures OpEffect(s, u).base == s.base && OpEffect(s, u).frames == s.frames
  {
    var wa := WakeAction(s, u);
    hide Q.Step, Q.Enabled, W.Step, W.Enabled;
    WakerPlaces(s.w, wa, u);
    if u != v {
      Others(s.w.wakers, W.Step(s.w, wa).wakers, u, v);
    }
  }

  /** An operation that pushes keeps the threads in step. */
  lemma PushOpSync(s: Sys, u: Tid, v: Tid)
    requires SyncAt(s, u) && SyncAt(s, v) && OpEnabled(s, u) && (s.ops[u].Store? || s.ops[u].Push?)
    ensures SyncAt(OpEffect(s, u), v)
    ensures OpEffect(s, u).q.pop == s.q.pop && OpEffect(s, u).w == s.w
    ensures OpEffect(s, u).base == s.base && OpEffect(s, u).frames == s.frames
  {
    hide Q.Step, Q.Enabled, W.Step, W.Enabled;
    var qa := if s.ops[u].Store? then Q.Store(u, s.ops[u].task) else PushAction(s, u);
    QueuePlaces(s.q, qa);
  }

  /** The remaining operations touch neither the queue nor the atomic waker. */
  lemma PlainOpSync(s: Sys, u: Tid, v: Tid)
    requires SyncAt(s, u) && SyncAt(s, v) && OpEnabled(s, u)
    requires s.ops[u].TryQueue? || s.ops[u].Upgrade? || s.ops[u].Release?
    ensures SyncAt(OpEffect(s, u), v)
    ensures OpEffect(s, u).q == s.q && OpEffect(s, u).w == s.w
    ensures OpEffect(s, u).base == s.base && OpEffect(s, u).frames == s.frames
  {
    hide Q.Step, Q.Enabled, W.Step, W.Enabled, QueueHeld;
  }

  /** An operation only ever changes its own entry, and keeps its kind. */
  ghost predicate KeepsKind(s: Sys, s': Sys, u: Tid) {
    && u in s.ops
    && s'.ops - {u} == s.ops - {u}
    && (u in s'.ops ==> s'.ops[u].kind == s.ops[u].kind)
  }

  lemma WakeOpKeepsKind(s: Sys, u: Tid)
    requires OpEnabled(s, u) && (s.ops[u].Signal? || s.ops[u].Waking?)
    ensures KeepsKind(s, OpEffect(s, u), u)
  {
    hide Q.Step, Q.Enabled, W.Step, W.Enabled, QueueHeld, WakeAction, PushAction;
  }

  lemma OpKeepsKind(s: Sys, u: Tid)
    requires OpEnabled(s, u)
    ensures KeepsKind(s, OpEffect(s, u), u)
  {
    hide Q.Step, Q.Enabled, W.Step, W.Enabled, QueueHeld, WakeAction, PushAction;
    if s.ops[u].Signal? || s.ops[u].Waking? {
      hide OpEffect;
      WakeOpKeepsKind(s, u);
    }
  }

  lemma OpSyncAt(s: Sys, u: Tid, v: Tid)
    requires Sync(s) && OpEnabled(s, u) && u in s.ops
    ensures SyncAt(OpEffect(s, u), v)
    ensures OpEffect(s, u).q.pop == s.q.pop && OpEffect(s, u).w.register == s.w.register
    ensures OpEffect(s, u).base == s.base && OpEffect(s, u).frames == s.frames
  {
    hide SyncAt, BaseSync, OpEffect, OpEnabled;
    if s.ops[u].Signal? {
      SignalSync(s, u, v);
    } else if s.ops[u].Waking? {
      WakingSync(s, u, v);
    } else if s.ops[u].Store? || s.ops[u].Push? {
      PushOpSync(s, u, v);
    } else {
      PlainOpSync(s, u, v);
    }
  }

  lemma OpSync(s: Sys, u: Tid)
    requires Sync(s) && OpEnabled(s, u)
    ensures Sync(OpEffect(s, u))
  {
    hide SyncAt, OpEffect;
    OpKeepsKind(s, u);
    forall v ensures SyncAt(OpEffect(s, u), v) { OpSyncAt(s, u, v); }
    OpSyncAt(s, u, u);
    if u != CONSUMER {
      Others(s.ops, OpEffect(s, u).ops, u, CONSUMER);
    }
  }

  /** An answer of `pop` only moves the consumer, and may notify the parent. */
  ghost predicate OnlyAnswered(s: Sys, s': Sys) {
    && s' == s.(w := s'.w, base := s'.base, hist := s'.hist)
    && s'.w == s.w.(woken := s'.w.woken)
    && (s'.base == s.base || s'.base.Out? || s'.base.Got? || s'.base.ClearGot?)
  }

  lemma PollAnsweredShape(s: Sys, answer: Q.Answer)
    ensures OnlyAnswered(s, PollAnswered(s, answer))
  {
  }

  lemma ClearAnsweredShape(s: Sys, answer: Q.Answer)
    ensures OnlyAnswered(s, ClearAnswered(s, answer))
  {
  }

  lemma PopShape(s: Sys, a: Q.Action)
    requires Enabled(s, PopStep(a))
    ensures OnlyAnswered(s.(q := Q.Step(s.q, a)), PopEffect(s, a))
    ensures PopEffect(s, a).base == s.base || Q.Step(s.q, a).pop == Q.Outside
  {
    hide Q.Step, Q.Enabled, W.Step, W.Enabled, PollAnswered, ClearAnswered;
    QueuePlaces(s.q, a);
    var s' := s.(q := Q.Step(s.q, a));
    if Q.Answered(s.q, a).Some? {
      PollAnsweredShape(s', Q.Answered(s.q, a).value);
      ClearAnsweredShape(s', Q.Answered(s.q, a).value);
    }
  }

  lemma PopSync(s: Sys, a: Q.Action)
    requires Sync(s) && Enabled(s, PopStep(a))
    ensures Sync(PopEffect(s, a))
  {
    hide Q.Step, Q.Enabled, W.Step, W.Enabled, PopEffect;
    var s' := PopEffect(s, a);
    PopShape(s, a);
    QueuePlaces(s.q, a);
    SyncSame(s, s');
  }

  lemma RegisterSync(s: Sys, a: Action)
    requires Sync(s) && Enabled(s, a) && (a.StartPoll? || a.RegisterStep?)
    ensures Sync(Step(s, a))
  {
    var s' := Step(s, a);
    forall u ensures SyncAt(s', u) { assert SyncAt(s, u); }
  }

  predicate ChangesOps(a: Action) {
    a.StartWake? || a.PushTask? || a.StartCancel? || a.EndDrop?
  }

  predicate Rest(a: Action) {
    !a.OpStep? && !a.PopStep? && !a.StartPoll? && !a.RegisterStep?
  }

  /** The steps that start an operation only add it. */
  lemma StartShape(s: Sys, a: Action)
    requires Enabled(s, a) && ChangesOps(a)
    ensures Step(s, a).q == s.q && Step(s, a).w == s.w && Step(s, a).base == s.base
    ensures Step(s, a).ops ==
            match a
            case StartWake(h, u) => s.ops[u := TryQueue(s.handles[h], Wake)]
            case PushTask(t) => s.ops[CONSUMER := Store(t, New)]
            case StartCancel(t) => if s.tasks[t].done.Running? then s.ops else s.ops[CONSUMER := Release(t, Cancel)]
            case EndDrop => s.ops[CONSUMER := TryQueue(s.frames[|s.frames| - 1], Cancel)]
            case _ => s.ops
    ensures Step(s, a).frames ==
            match a
            case StartCancel(t) => if s.tasks[t].done.Running? then s.frames + [t] else s.frames
            case EndDrop => s.frames[..|s.frames| - 1]
            case _ => s.frames
  {
    hide Q.Step, Q.Enabled, W.Step, W.Enabled, OpEffect, OpEnabled, PopEffect;
  }

  lemma StartSync(s: Sys, a: Action)
    requires Sync(s) && Enabled(s, a) && ChangesOps(a)
    ensures Sync(Step(s, a))
  {
    hide Q.Step, Q.Enabled, W.Step, W.Enabled, Step, OpEnabled;
    StartShape(s, a);
    var s' := Step(s, a);
    forall u ensures SyncAt(s', u) { assert SyncAt(s, u); }
  }

  /** The step starts no operation, and moves the consumer only from a place where it may. */
  ghost predicate StartsNothing(s: Sys, s': Sys) {
    && s'.q == s.q && s'.w == s.w.(woken := s'.w.woken)
    && s'.ops == s.ops && s'.frames == s.frames
    && (s.base.Registering? <==> s'.base.Registering?)
    && (s'.base == s.base || (!s.base.Popping? && !s.base.ClearPop? && (PollerTurn(s) || !UserBase(s.base))))
  }

  lemma HandleShape(s: Sys, a: Action)
    requires Enabled(s, a) && (a.CloneWaker? || a.DropWaker? || a.DropSchedular? || a.EndTurn?)
    ensures StartsNothing(s, Step(s, a))
  {
    hide Q.Step, Q.Enabled, W.Step, W.Enabled;
  }

  lemma DispatchShape(s: Sys, a: Action)
    requires Enabled(s, a) && a.Dispatch?
    ensures StartsNothing(s, Step(s, a))
  {
    hide Q.Step, Q.Enabled, W.Step, W.Enabled;
  }

  lemma EndDriveShape(s: Sys, ready: bool)
    requires Enabled(s, EndDrive(ready))
    ensures StartsNothing(s, Step(s, EndDrive(ready)))
  {
    hide Q.Step, Q.Enabled, W.Step, W.Enabled;
  }

  lemma ClearShape(s: Sys, a: Action)
    requires Enabled(s, a) && (a.Detach? || a.StartClear? || a.ClearNext?)
    ensures StartsNothing(s, Step(s, a))
  {
    hide Q.Step, Q.Enabled, W.Step, W.Enabled;
  }

  lemma RestShape(s: Sys, a: Action)
    requires Enabled(s, a) && Rest(a) && !ChangesOps(a)
    ensures StartsNothing(s, Step(s, a))
  {
    hide Step, Enabled, StartsNothing;
    if a.CloneWaker? || a.DropWaker? || a.DropSchedular? || a.EndTurn? {
      HandleShape(s, a);
    } else if a.EndDrive? {
      EndDriveShape(s, a.ready);
    } else if a.Dispatch? {
      DispatchShape(s, a);
    } else {
      ClearShape(s, a);
    }
  }

  /** Only the steps of operations, and those that start one, change the operations under way. */
  lemma OtherOps(s: Sys, a: Action)
    requires Enabled(s, a) && !a.OpStep? && !ChangesOps(a)
    ensures Step(s, a).ops == s.ops
  {
    if a.PopStep? {
      PopShape(s, a.qa);
      hide PopEffect, Q.Step, Q.Enabled;
    } else if Rest(a) {
      RestShape(s, a);
      hide Step, Enabled;
    } else {
      hide Q.Step, Q.Enabled, W.Step, W.Enabled, PopEffect;
    }
  }

  lemma RestSync(s: Sys, a: Action)
    requires Sync(s) && Enabled(s, a) && Rest(a) && !ChangesOps(a)
    ensures Sync(Step(s, a))
  {
    hide Q.Step, Q.Enabled, W.Step, W.Enabled, Step, Enabled, SyncAt;
    RestShape(s, a);
    SyncSame(s, Step(s, a));
  }

  lemma SyncStep(s: Sys, a: Action)
    requires Sync(s) && Enabled(s, a)
    ensures Sync(Step(s, a))
  {
    hide OpEffect, PopEffect, Sync;
    match a
    case OpStep(u) => OpSync(s, u);
    case PopStep(qa) => PopSync(s, qa);
    case StartPoll(_) => RegisterSync(s, a);
    case RegisterStep(_) => RegisterSync(s, a);
    case _ => if ChangesOps(a) { StartSync(s, a); } else { RestSync(s, a); }
  }
}
