/**
 The turns of the poll loop: whose step it is, what each step leaves alone, and how the consumer gets on.
 */
module SchedularTurns {
  import opened Wrappers
  import opened Schedular
  import opened SchedularInv
  import opened SchedularHolders
  import opened SchedularTasks
  import opened SchedularSafety
  import opened SchedularWake
  import opened SchedularPoll
  import opened SchedularRuns
  import Q = Queue
  import W = AtomicWaker

  /** A step of another thread. */
  predicate ByOther(s: Sys, a: Action) {
    match a
    case OpStep(u) => u != CONSUMER
    case StartWake(_, _) => true
    case CloneWaker(from, _) => from.Some?
    case DropWaker(_) => true
    case _ => false
  }

  /** A step of another thread, or of the code of a future on the consumer's own. */
  predicate ByUser(s: Sys, a: Action) {
    a.OpStep? || a.StartWake? || a.CloneWaker? || a.DropWaker? || a.PushTask? || a.StartCancel? || a.EndDrop?
  }

  /** Where `poll` is, and what it counted, is left alone; every task that is new was pushed. */
  ghost predicate Elsewhere(s: Sys, s': Sys) {
    && s'.base == s.base && s'.q.pop == s.q.pop && s'.w.register == s.w.register && s'.w.current == s.w.current
    && s'.alive == s.alive && s'.hist.pops == s.hist.pops
    && s'.iteration == s.iteration && s'.hist.start == s.hist.start
    && s'.hist.created - s.hist.created == |s'.tasks| - |s.tasks|
  }

  /** What the consumer does inside a future is left alone, too. */
  ghost predicate Away(s: Sys, s': Sys) {
    && Elsewhere(s, s') && |s'.tasks| == |s.tasks|
    && s'.frames == s.frames && (CONSUMER in s'.ops <==> CONSUMER in s.ops) && Nested(s') == Nested(s)
  }

  /** How many steps the operation of the consumer still has. */
  function Nested(s: Sys): nat {
    if CONSUMER !in s.ops then 0
    else match s.ops[CONSUMER]
      case TryQueue(_, _) => 12
      case Upgrade(_, _) => 11
      case Release(_, _) => 1
      case Signal(_, _) => 10
      case Waking(_, _) =>
        if CONSUMER !in s.w.wakers then 7
        else (match s.w.wakers[CONSUMER]
              case Locked => 9
              case Releasing(_) => 8
              case Calling(_) => 7)
      case Store(_, _) => 6
      case Push(_, _) => if CONSUMER in s.q.producers && s.q.producers[CONSUMER].Cleared? then 5 else 4
  }

  ghost function Bound(limit: nat): nat {
    12 * (4 * limit + 3)
  }

  /** In the middle of a poll; no more than `limit` tasks are ever created. */
  ghost predicate Polling(s: Sys, limit: nat) {
    AllInv(s) && InPoll(s.base) && s.alive && Budget(s) <= |s.tasks| <= limit
  }

  /** The step of `pop` that comes next. */
  function NextPop(pop: Q.PopPc): Q.Action {
    match pop
    case Outside => Q.PopLoad
    case Skipped => Q.PopSkip
    case CheckHead => Q.PopHead
    case StubStore => Q.PopStubStore
    case StubSwap => Q.PopStubSwap
    case StubLink(_, _) => Q.PopStubLink
    case Reload => Q.PopReload
  }

  /** The step of `register` that comes next. */
  function NextRegister(pc: W.RegisterPc): W.Action {
    match pc
    case Storing(_) => W.StoreCell
    case Committing(_) => W.Commit
    case Reclaiming => W.Reclaim
    case Handing(_) => W.SwapState
    case _ => W.CallSelf
  }

  /** What a step of `poll` itself leaves alone, and what it leaves behind when it returns. */
  ghost predicate OwnRecord(s: Sys, s': Sys) {
    && Budget(s') == Budget(s) && |s'.tasks| == |s.tasks| && s'.hist.start == s.hist.start
    && s'.alive == s.alive && s'.w.current == s.w.current
    && (InPoll(s'.base) || (
          && s'.base.Out? && s'.iteration == s.iteration
          && (s'.hist.pending || s'.all == {}) && (s'.hist.pending ==> s'.all != {} || s'.w.woken) && !s'.hist.outside))
  }

  // ----- steps of others and of futures

  /** An operation changes the queue, the waker, the tasks and its own entry, and nothing else. */
  ghost predicate OpShape(s: Sys, s': Sys, u: Tid) {
    && s' == s.(q := s'.q, w := s'.w, tasks := s'.tasks, len := s'.len, ops := s'.ops)
    && s'.ops - {u} == s.ops - {u}
  }

  lemma PutShape(s: Sys, u: Tid, op: Option<Op>)
    ensures OpShape(s, PutOp(s, u, op), u) && PutOp(s, u, op) == s.(ops := PutOp(s, u, op).ops)
  {
    assert s.ops[u := if op.Some? then op.value else Release(0, Wake)] - {u} == s.ops - {u};
    assert (s.ops - {u}) - {u} == s.ops - {u};
  }

  lemma PlainOpShape(s: Sys, u: Tid)
    requires OpEnabled(s, u) && (s.ops[u].TryQueue? || s.ops[u].Upgrade? || s.ops[u].Release?)
    ensures var s' := OpEffect(s, u);
      OpShape(s, s', u) && s'.q == s.q && s'.w == s.w && |s'.tasks| == |s.tasks|
  {
    hide QueueHeld;
  }

  lemma SignalShape(s: Sys, u: Tid)
    requires u in s.ops && W.Enabled(s.w, W.FetchOr(u))
    ensures var s' := SignalEffect(s, u);
      OpShape(s, s', u) && s'.q == s.q && s'.tasks == s.tasks && s'.w == W.Step(s.w, W.FetchOr(u))
  {
    var w := W.Step(s.w, W.FetchOr(u));
    PutShape(s.(w := w), u, if u in w.wakers then Some(Waking(s.ops[u].task, s.ops[u].kind)) else AfterWake(s.ops[u]));
    hide W.Step, W.Enabled, PutOp, AfterWake;
  }

  lemma WakingShape(s: Sys, u: Tid)
    requires u in s.ops && W.Enabled(s.w, WakeAction(s, u))
    ensures var s' := WakingEffect(s, u);
      OpShape(s, s', u) && s'.q == s.q && s'.tasks == s.tasks && s'.w == W.Step(s.w, WakeAction(s, u))
  {
    var w := W.Step(s.w, WakeAction(s, u));
    PutShape(s.(w := w), u, if u in w.wakers then Some(s.ops[u]) else AfterWake(s.ops[u]));
    hide W.Step, W.Enabled, PutOp, AfterWake, WakeAction;
  }

  lemma StoreShape(s: Sys, u: Tid, t: TaskId, kind: Kind)
    requires Q.Enabled(s.q, Q.Store(u, t))
    ensures var s' := StoreEffect(s, u, t, kind);
      OpShape(s, s', u) && s'.w == s.w && s'.tasks == s.tasks && s'.q == Q.Step(s.q, Q.Store(u, t))
      && s'.ops == s.ops[u := Push(t, kind)]
  {
    hide Q.Step, Q.Enabled;
  }

  lemma PushShape(s: Sys, u: Tid)
    requires u in s.ops && Q.Enabled(s.q, PushAction(s, u))
    ensures var s' := PushEffect(s, u);
      OpShape(s, s', u) && s'.w == s.w && s'.tasks == s.tasks && s'.q == Q.Step(s.q, PushAction(s, u))
      && (s.ops[u].kind == New ==> s'.ops == if u in s'.q.producers then s.ops[u := s.ops[u]] else s.ops - {u})
  {
    assert AfterPush(s.ops[u]).Some? <==> s.ops[u].kind == Wake;
    var q := Q.Step(s.q, PushAction(s, u));
    var ends := u !in q.producers;
    PutShape(s.(q := q, len := s.len + if ends && s.ops[u].kind == New then 1 else 0), u,
             if ends then AfterPush(s.ops[u]) else Some(s.ops[u]));
    hide Q.Step, Q.Enabled, AfterPush, PushAction;
  }

  lemma KeepsCurrent(w: W.State, a: W.Action)
    requires W.Enabled(w, a) && !a.Begin?
    ensures W.Step(w, a).current == w.current
  {
  }

  lemma PlainOpElsewhere(s: Sys, u: Tid)
    requires OpEnabled(s, u) && (s.ops[u].TryQueue? || s.ops[u].Upgrade? || s.ops[u].Release?)
    ensures var s' := OpEffect(s, u);
      OpShape(s, s', u) && Elsewhere(s, s') && |s'.tasks| == |s.tasks| && s'.q == s.q && s'.w == s.w
  {
    PlainOpShape(s, u);
    hide OpEffect;
  }

  lemma WakeOpElsewhere(s: Sys, u: Tid)
    requires OpEnabled(s, u) && (s.ops[u].Signal? || s.ops[u].Waking?)
    ensures var s' := OpEffect(s, u);
      && OpShape(s, s', u) && Elsewhere(s, s') && |s'.tasks| == |s.tasks| && s'.q == s.q
      && s'.w.wakers - {u} == s.w.wakers - {u}
  {
    var wa := if s.ops[u].Signal? then W.FetchOr(u) else WakeAction(s, u);
    WakerPlaces(s.w, wa, u);
    KeepsCurrent(s.w, wa);
    if s.ops[u].Signal? {
      SignalShape(s, u);
    } else {
      WakingShape(s, u);
    }
    hide W.Step, W.Enabled, WakeAction, SignalEffect, WakingEffect;
  }

  lemma StoreElsewhere(s: Sys, u: Tid, t: TaskId, kind: Kind)
    requires Q.Enabled(s.q, Q.Store(u, t))
    ensures var s' := StoreEffect(s, u, t, kind);
      && OpShape(s, s', u) && Elsewhere(s, s') && |s'.tasks| == |s.tasks| && s'.w == s.w
      && s'.q.producers - {u} == s.q.producers - {u}
  {
    StoreShape(s, u, t, kind);
    PlacesOfOthers(s.q, Q.Store(u, t), u);
    hide Q.Step, Q.Enabled, StoreEffect;
  }

  lemma PushElsewhere(s: Sys, u: Tid)
    requires u in s.ops && Q.Enabled(s.q, PushAction(s, u))
    ensures var s' := PushEffect(s, u);
      && OpShape(s, s', u) && Elsewhere(s, s') && |s'.tasks| == |s.tasks| && s'.w == s.w
      && s'.q.producers - {u} == s.q.producers - {u}
  {
    PushShape(s, u);
    PlacesOfOthers(s.q, PushAction(s, u), u);
    hide Q.Step, Q.Enabled, PushEffect, PushAction;
  }

  lemma PushOpElsewhere(s: Sys, u: Tid)
    requires OpEnabled(s, u) && (s.ops[u].Store? || s.ops[u].Push?)
    ensures var s' := OpEffect(s, u);
      && OpShape(s, s', u) && Elsewhere(s, s') && |s'.tasks| == |s.tasks| && s'.w == s.w
      && s'.q.producers - {u} == s.q.producers - {u}
  {
    hide Q.Step, Q.Enabled, StoreEffect, PushEffect, PushAction, Elsewhere, OpShape;
    if s.ops[u].Store? {
      StoreElsewhere(s, u, s.ops[u].task, s.ops[u].kind);
    } else {
      PushElsewhere(s, u);
    }
  }

  lemma PlacesOfOthers(q: Q.State, a: Q.Action, u: Tid)
    requires Q.Enabled(q, a) && (a.Store? || a.Swap? || a.Link?) && a.t == u
    ensures Q.Step(q, a).pop == q.pop && Q.Step(q, a).producers - {u} == q.producers - {u}
  {
    QueuePlaces(q, a);
    hide Q.Step;
  }

  lemma OpElsewhere(s: Sys, u: Tid)
    requires OpEnabled(s, u)
    ensures var s' := OpEffect(s, u);
      && OpShape(s, s', u) && Elsewhere(s, s') && |s'.tasks| == |s.tasks|
      && s'.q.producers - {u} == s.q.producers - {u} && s'.w.wakers - {u} == s.w.wakers - {u}
  {
    assert u in s.ops;
    hide OpEnabled, OpEffect, Elsewhere, OpShape;
    if s.ops[u].Store? || s.ops[u].Push? {
      PushOpElsewhere(s, u);
    } else if s.ops[u].Signal? || s.ops[u].Waking? {
      WakeOpElsewhere(s, u);
    } else {
      PlainOpElsewhere(s, u);
    }
  }

  lemma UserIsElsewhere(s: Sys, a: Action)
    requires Enabled(s, a) && ByUser(s, a) && InPoll(s.base)
    ensures Elsewhere(s, Step(s, a))
    ensures |Step(s, a).tasks| == |s.tasks| + if a.PushTask? then 1 else 0
  {
    hide W.Step, W.Enabled, Q.Step, Q.Enabled, OpEffect, OpEnabled, Elsewhere;
    if a.OpStep? {
      OpElsewhere(s, a.u);
    } else {
      HandleElsewhere(s, a);
    }
  }

  lemma HandleElsewhere(s: Sys, a: Action)
    requires Enabled(s, a) && ByUser(s, a) && InPoll(s.base) && !a.OpStep?
    ensures Elsewhere(s, Step(s, a))
    ensures |Step(s, a).tasks| == |s.tasks| + if a.PushTask? then 1 else 0
  {
    if a.CloneWaker? || a.DropWaker? {
      WakerElsewhere(s, a);
    } else {
      StartElsewhere(s, a);
    }
    hide Elsewhere, Step, Enabled;
  }

  lemma WakerElsewhere(s: Sys, a: Action)
    requires Enabled(s, a) && (a.CloneWaker? || a.DropWaker?)
    ensures Elsewhere(s, Step(s, a)) && |Step(s, a).tasks| == |s.tasks|
  {
    hide W.Step, W.Enabled, Q.Step, Q.Enabled;
  }

  lemma StartElsewhere(s: Sys, a: Action)
    requires Enabled(s, a) && InPoll(s.base) && (a.StartWake? || a.PushTask? || a.StartCancel? || a.EndDrop?)
    ensures Elsewhere(s, Step(s, a))
    ensures |Step(s, a).tasks| == |s.tasks| + if a.PushTask? then 1 else 0
  {
    hide W.Step, W.Enabled, Q.Step, Q.Enabled;
  }

  lemma OtherIsAway(s: Sys, a: Action)
    requires Enabled(s, a) && ByOther(s, a) && InPoll(s.base)
    ensures Away(s, Step(s, a))
  {
    UserIsElsewhere(s, a);
    if a.OpStep? {
      OtherOpIsAway(s, a.u);
    } else {
      OtherHandleIsAway(s, a);
    }
  }

  lemma OtherHandleIsAway(s: Sys, a: Action)
    requires Enabled(s, a) && ByOther(s, a) && !a.OpStep? && InPoll(s.base)
    ensures var s' := Step(s, a);
      && |s'.tasks| == |s.tasks| && s'.frames == s.frames
      && (CONSUMER in s'.ops <==> CONSUMER in s.ops) && Nested(s') == Nested(s)
  {
    if a.StartWake? {
      StartShape(s, a);
      StartElsewhere(s, a);
      assert a.u != CONSUMER;
    } else {
      HandleShape(s, a);
      WakerElsewhere(s, a);
    }
    hide Step, Enabled, Elsewhere;
  }

  lemma OtherOpIsAway(s: Sys, u: Tid)
    requires OpEnabled(s, u) && u != CONSUMER
    ensures var s' := OpEffect(s, u);
      && |s'.tasks| == |s.tasks| && s'.frames == s.frames
      && (CONSUMER in s'.ops <==> CONSUMER in s.ops) && Nested(s') == Nested(s)
  {
    var s' := OpEffect(s, u);
    OpElsewhere(s, u);
    hide OpEffect, OpEnabled, Elsewhere;
    Others(s.ops, s'.ops, u, CONSUMER);
    Others(s.q.producers, s'.q.producers, u, CONSUMER);
    Others(s.w.wakers, s'.w.wakers, u, CONSUMER);
  }

  // ----- the consumer inside a future

  lemma NestedAdvances(s: Sys)
    requires AllInv(s) && !PollerTurn(s)
    ensures var a := if CONSUMER in s.ops then OpStep(CONSUMER) else EndDrop;
      && Enabled(s, a) && ByUser(s, a)
      && (if CONSUMER in s.ops then Step(s, a).frames == s.frames && Nested(Step(s, a)) < Nested(s)
          else |Step(s, a).frames| < |s.frames|)
  {
    if CONSUMER in s.ops {
      OpNotStuck(s, CONSUMER);
      assert SyncAt(s, CONSUMER);
      NestedOpAdvances(s);
      OpElsewhere(s, CONSUMER);
      hide Inv, OpEffect, OpEnabled;
    }
  }

  lemma NestedOpAdvances(s: Sys)
    requires OpEnabled(s, CONSUMER) && SyncAt(s, CONSUMER)
    ensures Nested(OpEffect(s, CONSUMER)) < Nested(s)
  {
    var op := s.ops[CONSUMER];
    if op.Store? || op.Push? {
      NestedPushAdvances(s);
    } else if op.Signal? || op.Waking? {
      NestedWakeAdvances(s);
    } else {
      hide QueueHeld;
    }
  }

  lemma NestedPushAdvances(s: Sys)
    requires OpEnabled(s, CONSUMER) && SyncAt(s, CONSUMER) && (s.ops[CONSUMER].Store? || s.ops[CONSUMER].Push?)
    ensures Nested(OpEffect(s, CONSUMER)) < Nested(s)
  {
    var qa := if s.ops[CONSUMER].Store? then Q.Store(CONSUMER, s.ops[CONSUMER].task) else PushAction(s, CONSUMER);
    QueuePlaces(s.q, qa);
    hide Q.Step, Q.Enabled;
  }

  lemma NestedWakeAdvances(s: Sys)
    requires OpEnabled(s, CONSUMER) && SyncAt(s, CONSUMER) && (s.ops[CONSUMER].Signal? || s.ops[CONSUMER].Waking?)
    ensures Nested(OpEffect(s, CONSUMER)) < Nested(s)
  {
  }

  // ----- the steps of poll itself

  lemma OwnAdvances(s: Sys, a: Action, limit: nat)
    requires Polling(s, limit) && Enabled(s, a) && PollsOn(s, a)
    ensures OwnRecord(s, Step(s, a))
    ensures InPoll(Step(s, a).base) ==> Progress(s) < Progress(Step(s, a)) && Progress(s) <= Bound(limit)
  {
    OwnIsRecorded(s, a);
    if InPoll(Step(s, a).base) {
      PollTerminates(s, a);
    }
  }

  lemma OwnIsRecorded(s: Sys, a: Action)
    requires Enabled(s, a) && PollsOn(s, a) && (s.base.Dropping? && s.base.returning ==> s.w.woken)
    ensures OwnRecord(s, Step(s, a))
  {
    hide OwnRecord, RegisterEffect, PopEffect;
    if a.RegisterStep? {
      RegisterIsRecorded(s, a.wa);
    } else if a.PopStep? {
      PopIsRecorded(s, a.qa);
    } else {
      TurnIsRecorded(s, a);
    }
  }

  lemma RegisterIsRecorded(s: Sys, wa: W.Action)
    requires Enabled(s, RegisterStep(wa))
    ensures OwnRecord(s, RegisterEffect(s, wa))
  {
    KeepsCurrent(s.w, wa);
    hide W.Step, W.Enabled;
  }

  lemma PopIsRecorded(s: Sys, qa: Q.Action)
    requires Enabled(s, PopStep(qa)) && s.base.Popping?
    ensures OwnRecord(s, PopEffect(s, qa))
  {
    var s' := s.(q := Q.Step(s.q, qa));
    StayIsRecorded(s');
    if Q.Answered(s.q, qa).Some? {
      AnswerIsRecorded(s', Q.Answered(s.q, qa).value);
    }
    QueueAside(s, s'.q, PopEffect(s, qa));
    hide Q.Step, Q.Enabled, Q.Answered, PollAnswered, ClearAnswered, OwnRecord;
  }

  lemma StayIsRecorded(s: Sys)
    requires InPoll(s.base)
    ensures OwnRecord(s, s)
  {
  }

  lemma QueueAside(s: Sys, q: Q.State, s': Sys)
    ensures OwnRecord(s.(q := q), s') ==> OwnRecord(s, s')
  {
  }

  lemma AnswerIsRecorded(s: Sys, answer: Q.Answer)
    requires s.base.Popping?
    ensures OwnRecord(s, PollAnswered(s, answer))
  {
  }

  lemma TurnIsRecorded(s: Sys, a: Action)
    requires Enabled(s, a) && PollsOn(s, a) && (a.Dispatch? || a.EndDrive? || a.Detach? || a.EndTurn?)
    requires s.base.Dropping? && s.base.returning ==> s.w.woken
    ensures OwnRecord(s, Step(s, a))
  {
    hide OwnRecord, DispatchEffect, EndDriveEffect, DetachEffect, EndTurnEffect;
    var t := s.base.task;
    match a
    case Dispatch => DispatchIsRecorded(s, t);
    case EndDrive(ready) => EndDriveIsRecorded(s, t, ready);
    case Detach => DetachIsRecorded(s, t);
    case EndTurn => EndTurnIsRecorded(s, t, s.base.returning);
  }

  lemma DispatchIsRecorded(s: Sys, t: TaskId)
    requires t in s.tasks
    ensures OwnRecord(s, DispatchEffect(s, t))
  {
  }

  lemma EndDriveIsRecorded(s: Sys, t: TaskId, ready: bool)
    requires t in s.tasks
    ensures OwnRecord(s, EndDriveEffect(s, t, ready))
  {
  }

  lemma DetachIsRecorded(s: Sys, t: TaskId)
    requires t in s.tasks && s.base.Removing?
    ensures OwnRecord(s, DetachEffect(s, t))
  {
  }

  lemma EndTurnIsRecorded(s: Sys, t: TaskId, returning: bool)
    requires t in s.tasks && (returning ==> s.w.woken)
    ensures OwnRecord(s, EndTurnEffect(s, t, returning))
  {
  }

  // ----- how far a poll has come

  /** `poll` has returned, having done what it should. */
  ghost predicate Returned(s: Sys, limit: nat) {
    && AllInv(s) && s.base.Out? && |s.tasks| <= limit && s.iteration <= 2 * Budget(s)
    && (s.hist.pending || s.all == {}) && (s.hist.pending ==> s.all != {} || s.w.woken) && !s.hist.outside
  }

  /** Still in the poll and no less far, or returned; with the same waker, and the new tasks counted. */
  ghost predicate Reached(s: Sys, s': Sys, limit: nat) {
    && (if InPoll(s'.base) then Polling(s', limit) && Progress(s) <= Progress(s') else Returned(s', limit))
    && s'.w.current == s.w.current && s'.hist.start == s.hist.start
    && s'.hist.created - s.hist.created == |s'.tasks| - |s.tasks|
  }

  /** Further than before, if still in the poll; and there is an end to that. */
  ghost predicate Advanced(s: Sys, s': Sys, limit: nat) {
    Reached(s, s', limit) && (InPoll(s'.base) ==> Progress(s) < Progress(s') && Progress(s) <= Bound(limit))
  }

  lemma Then(s: Sys, s1: Sys, s2: Sys, limit: nat)
    requires InPoll(s1.base) && Reached(s, s1, limit) && Reached(s1, s2, limit)
    ensures Reached(s, s2, limit)
    ensures Advanced(s, s1, limit) || Advanced(s1, s2, limit) ==> Advanced(s, s2, limit)
  {
    hide AllInv, Progress, Bound;
  }

  lemma ElsewhereReaches(s: Sys, s': Sys, limit: nat)
    requires Polling(s, limit) && Polling(s', limit) && Elsewhere(s, s')
    ensures Reached(s, s', limit)
  {
    hide AllInv;
  }

  lemma OwnReaches(s: Sys, a: Action, limit: nat)
    requires Polling(s, limit) && Enabled(s, a) && PollsOn(s, a)
    ensures Advanced(s, Step(s, a), limit)
  {
    OwnAdvances(s, a, limit);
    StepAll(s, a);
    assert s.iteration <= 2 * Budget(s);
    hide AllInv, Step, Enabled, Progress;
  }

  // ----- the next step

  lemma RegisterIsNext(s: Sys)
    requires AllInv(s) && s.base.Registering?
    ensures var a := RegisterStep(NextRegister(s.w.register));
      Enabled(s, a) && PollsOn(s, a) && (Step(s, a).base.Registering? || Step(s, a).base.Popping?)
  {
    assert W.Inv(s.w) && Sync(s);
    hide AllInv, W.Step;
  }

  lemma PopIsNext(s: Sys)
    requires s.base.Popping?
    ensures var a := PopStep(NextPop(s.q.pop));
      Enabled(s, a) && PollsOn(s, a)
      && (Step(s, a).base.Popping? || Step(s, a).base.Got? || Step(s, a).base.Out?)
  {
    hide Q.Step, Q.Answered;
  }

  lemma DispatchIsNext(s: Sys)
    requires AllInv(s) && s.base.Got?
    ensures Enabled(s, Dispatch) && PollsOn(s, Dispatch)
    ensures var b := Step(s, Dispatch).base; b.Popping? || (b.Removing? && !b.driven) || b.Driving?
  {
    HolderKnown(s, s.base.task, Poller);
    hide AllInv, Inv;
  }

  lemma EndDriveIsNext(s: Sys, ready: bool)
    requires AllInv(s) && s.base.Driving? && PollerTurn(s)
    ensures Enabled(s, EndDrive(ready)) && PollsOn(s, EndDrive(ready))
    ensures var b := Step(s, EndDrive(ready)).base; if ready then b.Removing? && b.driven else b.Dropping?
  {
    HolderKnown(s, s.base.task, Poller);
    hide AllInv, Inv;
  }

  lemma DetachIsNext(s: Sys)
    requires AllInv(s) && s.base.Removing? && PollerTurn(s)
    ensures Enabled(s, Detach) && PollsOn(s, Detach)
    ensures var b := Step(s, Detach).base; if s.base.driven then b.Dropping? else b.Popping?
  {
    assert PlacesOk(s);
    hide AllInv, Inv;
  }

  lemma EndTurnIsNext(s: Sys)
    requires AllInv(s) && s.base.Dropping?
    ensures Enabled(s, EndTurn) && PollsOn(s, EndTurn)
    ensures var b := Step(s, EndTurn).base; b.Popping? || b.Out?
  {
    HolderKnown(s, s.base.task, Poller);
    hide AllInv, Inv;
  }
}
