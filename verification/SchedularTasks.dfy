/**
 Task states, the all-list and the drops of futures: a future is dropped exactly when its task stops
 running, and the list holds exactly the tasks that were not removed.
 */
module SchedularTasks {
  import opened Wrappers
  import opened Schedular
  import opened SchedularInv
  import Q = Queue
  import W = AtomicWaker

  /** The task `pop_task_all` is working on. */
  function RemovingTask(b: Base): Option<TaskId> {
    match b
    case Removing(t, _) => Some(t)
    case ClearRemoving(t) => Some(t)
    case _ => None
  }

  /** The task is in the list until it is done and removed; its future is dropped once it stops running. */
  ghost predicate TaskAt(s: Sys, t: TaskId) {
    t in s.tasks ==>
      && s.tasks[t].dropped == (if s.tasks[t].done.Running? then 0 else 1)
      && (t in s.all <==> !s.tasks[t].done.Done? || RemovingTask(s.base) == Some(t))
      && (s.tasks[t].done.Done? ==> s.tasks[t].queued)
  }

  /** A push is still to be counted in `len`. */
  predicate Counting(s: Sys) {
    CONSUMER in s.ops && s.ops[CONSUMER].kind == New
  }

  ghost predicate ListOk(s: Sys) {
    && s.all <= s.tasks.Keys
    && s.len + (if Counting(s) then 1 else 0) == |s.all|
    && (s.base.ClearPop? || s.base.ClearGot? || !s.alive ==> s.all == {})
    && (!s.alive ==> s.base.Out?)
    && !s.panicked
  }

  ghost predicate PlacesOk(s: Sys) {
    && (RemovingTask(s.base).Some? ==> RemovingTask(s.base).value in s.tasks && s.tasks[RemovingTask(s.base).value].done.Done?)
    && (s.base.Driving? ==> s.base.task in s.tasks && s.tasks[s.base.task].done.Running?)
    && (forall i :: 0 <= i < |s.frames| ==> s.frames[i] in s.tasks && !s.tasks[s.frames[i]].done.Running?)
    && (forall t :: t in s.leaked ==> t in s.tasks && s.tasks[t].done.Done?)
  }

  ghost predicate TaskOk(s: Sys) {
    (forall t :: TaskAt(s, t)) && ListOk(s) && PlacesOk(s)
  }

  /** The record changed at most in its count, and its flag was not cleared. */
  predicate SameButFlag(k: Task, k': Task) {
    k'.done == k.done && k'.dropped == k.dropped && (k.queued ==> k'.queued)
  }

  /** The step changes no task's state. */
  ghost predicate SameStates(s: Sys, s': Sys) {
    && s'.tasks.Keys == s.tasks.Keys
    && (forall t :: t in s.tasks ==> SameButFlag(s.tasks[t], s'.tasks[t]))
    && s'.all == s.all && s'.leaked == s.leaked && s'.alive == s.alive && s'.panicked == s.panicked
  }

  /** Steps that change no state, list or place of the poller keep everything here. */
  lemma SameStatesOk(s: Sys, s': Sys)
    requires TaskOk(s) && SameStates(s, s')
    requires s'.len + (if Counting(s') then 1 else 0) == s.len + (if Counting(s) then 1 else 0)
    requires RemovingTask(s'.base) == RemovingTask(s.base)
    requires s'.base.Driving? ==> s'.base == s.base
    requires s'.base.ClearPop? || s'.base.ClearGot? ==> s.base.ClearPop? || s.base.ClearGot? || s.all == {}
    requires s'.base == s.base || s.alive || s'.base.Out?
    requires forall i :: 0 <= i < |s'.frames| ==> i < |s.frames| && s'.frames[i] == s.frames[i]
    ensures TaskOk(s')
  {
    forall t ensures TaskAt(s', t) { assert TaskAt(s, t); }
  }

  // ----- the operations

  lemma WakeOpTasks(s: Sys, u: Tid)
    requires TaskOk(s) && Sync(s) && OpEnabled(s, u) && (s.ops[u].Signal? || s.ops[u].Waking?)
    ensures TaskOk(OpEffect(s, u))
  {
    assert SyncAt(s, u);
    WakeOpSame(s, u);
    hide TaskOk, OpEffect, OpEnabled, Sync, SyncAt;
    SameStatesOk(s, OpEffect(s, u));
  }

  lemma WakeOpSame(s: Sys, u: Tid)
    requires SyncAt(s, u) && OpEnabled(s, u) && (s.ops[u].Signal? || s.ops[u].Waking?)
    ensures var s' := OpEffect(s, u);
      SameStates(s, s') && s'.base == s.base && s'.frames == s.frames && s'.len == s.len && s'.leaked == s.leaked
      && (Counting(s') <==> Counting(s))
  {
    if s.ops[u].Signal? {
      SignalSame(s, u);
    } else {
      WakingSame(s, u);
    }
    hide SignalEffect, WakingEffect, W.Enabled, WakeAction, SameStates, Counting, SyncAt;
  }

  lemma SignalSame(s: Sys, u: Tid)
    requires u in s.ops && s.ops[u].Signal? && W.Enabled(s.w, W.FetchOr(u)) && SyncAt(s, u)
    ensures var s' := SignalEffect(s, u);
      SameStates(s, s') && s'.base == s.base && s'.frames == s.frames && s'.len == s.len && s'.leaked == s.leaked
      && (Counting(s') <==> Counting(s))
  {
    hide W.Step, W.Enabled;
  }

  lemma WakingSame(s: Sys, u: Tid)
    requires u in s.ops && s.ops[u].Waking? && W.Enabled(s.w, WakeAction(s, u)) && SyncAt(s, u)
    ensures var s' := WakingEffect(s, u);
      SameStates(s, s') && s'.base == s.base && s'.frames == s.frames && s'.len == s.len && s'.leaked == s.leaked
      && (Counting(s') <==> Counting(s))
  {
    hide W.Step, W.Enabled, WakeAction;
  }

  lemma PushOpTasks(s: Sys, u: Tid)
    requires TaskOk(s) && Sync(s) && OpEnabled(s, u) && (s.ops[u].Store? || s.ops[u].Push?)
    ensures TaskOk(OpEffect(s, u))
  {
    assert SyncAt(s, u);
    PushOpSame(s, u);
    hide TaskOk, OpEffect, OpEnabled, Sync, SyncAt;
    SameStatesOk(s, OpEffect(s, u));
  }

  lemma PushOpSame(s: Sys, u: Tid)
    requires SyncAt(s, u) && OpEnabled(s, u) && (s.ops[u].Store? || s.ops[u].Push?)
    ensures var s' := OpEffect(s, u);
      SameStates(s, s') && s'.base == s.base && s'.frames == s.frames && s'.leaked == s.leaked
      && s'.len + (if Counting(s') then 1 else 0) == s.len + (if Counting(s) then 1 else 0)
  {
    if s.ops[u].Store? {
      StoreSame(s, u, s.ops[u].task, s.ops[u].kind);
    } else {
      PushSame(s, u);
    }
    hide StoreEffect, PushEffect, Q.Enabled, PushAction, SameStates, Counting, SyncAt;
  }

  lemma StoreSame(s: Sys, u: Tid, t: TaskId, kind: Kind)
    requires u in s.ops && s.ops[u] == Store(t, kind) && Q.Enabled(s.q, Q.Store(u, t))
    ensures var s' := StoreEffect(s, u, t, kind);
      SameStates(s, s') && s'.base == s.base && s'.frames == s.frames && s'.leaked == s.leaked
      && s'.len + (if Counting(s') then 1 else 0) == s.len + (if Counting(s) then 1 else 0)
  {
    hide Q.Step, Q.Enabled;
  }

  lemma PushSame(s: Sys, u: Tid)
    requires u in s.ops && s.ops[u].Push? && Q.Enabled(s.q, PushAction(s, u)) && SyncAt(s, u)
    ensures var s' := PushEffect(s, u);
      SameStates(s, s') && s'.base == s.base && s'.frames == s.frames && s'.leaked == s.leaked
      && s'.len + (if Counting(s') then 1 else 0) == s.len + (if Counting(s) then 1 else 0)
  {
    hide Q.Step, Q.Enabled, PushAction;
  }

  lemma PlainOpTasks(s: Sys, u: Tid)
    requires TaskOk(s) && Sync(s) && OpEnabled(s, u) && (s.ops[u].TryQueue? || s.ops[u].Upgrade? || s.ops[u].Release?)
    ensures TaskOk(OpEffect(s, u))
  {
    hide Q.Step, Q.Enabled, W.Step, W.Enabled, Q.Inv, W.Inv, QueueHeld, TaskOk;
    assert SyncAt(s, u);
    SameStatesOk(s, OpEffect(s, u));
  }

  // ----- the handles and tokens

  lemma HandleTasks(s: Sys, a: Action)
    requires TaskOk(s) && Sync(s) && Enabled(s, a) && (a.CloneWaker? || a.DropWaker? || a.StartWake?)
    ensures TaskOk(Step(s, a))
  {
    hide Q.Step, Q.Enabled, W.Step, W.Enabled, Q.Inv, W.Inv, TaskOk;
    SameStatesOk(s, Step(s, a));
  }

  lemma PushTaskTasks(s: Sys, t: TaskId)
    requires TaskOk(s) && t !in s.tasks && PollerTurn(s) && (s.base.Out? || s.base.Driving?) && s.alive
    ensures TaskOk(PushTaskEffect(s, t))
  {
    var s' := PushTaskEffect(s, t);
    forall x ensures TaskAt(s', x) { assert TaskAt(s, x); }
    assert |s'.all| == |s.all| + 1;
  }

  lemma StartCancelTasks(s: Sys, t: TaskId)
    requires TaskOk(s) && t in s.tasks && CONSUMER !in s.ops && s.base != Driving(t)
    ensures TaskOk(StartCancelEffect(s, t))
  {
    var s' := StartCancelEffect(s, t);
    assert TaskAt(s, t);
    forall x ensures TaskAt(s', x) { assert TaskAt(s, x); }
  }

  lemma EndDropTasks(s: Sys)
    requires TaskOk(s) && s.frames != [] && CONSUMER !in s.ops
    ensures TaskOk(EndDropEffect(s))
  {
    hide TaskOk;
    SameStatesOk(s, EndDropEffect(s));
  }

  // ----- the poll loop

  lemma RegisterTasks(s: Sys, a: Action)
    requires TaskOk(s) && Sync(s) && Enabled(s, a) && (a.StartPoll? || a.RegisterStep?)
    ensures TaskOk(Step(s, a))
  {
    assert !s.alive ==> s.base.Out?;
    hide W.Step, W.Enabled, Q.Inv, W.Inv, TaskOk;
    SameStatesOk(s, Step(s, a));
  }

  lemma PopTasks(s: Sys, a: Q.Action)
    requires TaskOk(s) && Sync(s) && Enabled(s, PopStep(a))
    ensures TaskOk(PopEffect(s, a))
  {
    assert !s.alive ==> s.base.Out?;
    PopShape(s, a);
    PopKind(s, a);
    assert s.base.Popping? || s.base.ClearPop?;
    hide Q.Step, Q.Enabled, W.Step, W.Enabled, Q.Inv, W.Inv, PopEffect, Enabled, TaskOk;
    SameStatesOk(s, PopEffect(s, a));
  }

  lemma PopKind(s: Sys, a: Q.Action)
    requires Enabled(s, PopStep(a))
    ensures PopEffect(s, a).base.ClearPop? || PopEffect(s, a).base.ClearGot? ==> s.base.ClearPop?
  {
    hide Q.Step, Q.Enabled, Q.Answered;
  }

  /** What `MarkDone` does, given where the consumer goes next. */
  lemma MarkDoneTasks(s: Sys, t: TaskId, s': Sys)
    requires TaskOk(s) && t in s.tasks && !s.tasks[t].done.Done? && RemovingTask(s.base).None?
    requires s'.tasks == MarkDone(s, t).tasks && RemovingTask(s'.base) == Some(t)
    requires s'.all == s.all && s'.alive == s.alive && s'.panicked == s.panicked && s'.len == s.len && s'.ops == s.ops
    requires s'.frames == s.frames && s'.leaked <= s.leaked + {t}
    ensures TaskOk(s')
  {
    forall x ensures TaskAt(s', x) { assert TaskAt(s, x); }
    assert TaskAt(s, t);
  }

  lemma DispatchTasks(s: Sys, t: TaskId)
    requires TaskOk(s) && s.base == Got(t) && t in s.tasks && s.tasks[t].queued
    ensures TaskOk(DispatchEffect(s, t))
  {
    var s' := DispatchEffect(s, t);
    if s.tasks[t].done.Cancelled? {
      hide TaskOk;
      MarkDoneTasks(s, t, s');
    } else {
      forall x ensures TaskAt(s', x) { assert TaskAt(s, x); }
    }
  }

  lemma ClearDispatchTasks(s: Sys, t: TaskId)
    requires TaskOk(s) && s.base == ClearGot(t) && t in s.tasks
    ensures TaskOk(ClearDispatchEffect(s, t))
  {
    assert !s.alive ==> s.base.Out?;
    hide TaskOk;
    SameStatesOk(s, ClearDispatchEffect(s, t));
  }

  lemma EndDriveTasks(s: Sys, t: TaskId, ready: bool)
    requires TaskOk(s) && s.base == Driving(t) && t in s.tasks
    ensures TaskOk(EndDriveEffect(s, t, ready))
  {
    assert !s.alive ==> s.base.Out?;
    assert s.tasks[t].done.Running?;
    hide TaskOk;
    if ready {
      MarkDoneTasks(s, t, EndDriveEffect(s, t, true));
    } else {
      SameStatesOk(s, EndDriveEffect(s, t, false));
    }
  }

  lemma DetachTasks(s: Sys, t: TaskId)
    requires TaskOk(s) && PollerTurn(s) && t in s.tasks && RemovingTask(s.base) == Some(t)
    ensures TaskOk(DetachEffect(s, t)) && t in s.all
  {
    var s' := DetachEffect(s, t);
    assert TaskAt(s, t);
    forall x ensures TaskAt(s', x) { assert TaskAt(s, x); }
  }

  lemma EndTurnTasks(s: Sys, t: TaskId, returning: bool)
    requires TaskOk(s) && s.base == Dropping(t, returning) && t in s.tasks
    ensures TaskOk(EndTurnEffect(s, t, returning))
  {
    assert !s.alive ==> s.base.Out?;
    hide TaskOk;
    SameStatesOk(s, EndTurnEffect(s, t, returning));
  }

  lemma ClearTasks(s: Sys, a: Action)
    requires TaskOk(s) && Sync(s) && Enabled(s, a) && (a.StartClear? || a.ClearNext? || a.DropSchedular?)
    ensures TaskOk(Step(s, a))
  {
    if a.ClearNext? && s.all != {} {
      assert TaskAt(s, a.task);
      MarkDoneTasks(s, a.task, Step(s, a));
    } else {
      forall x ensures TaskAt(Step(s, a), x) { assert TaskAt(s, x); }
    }
  }

  // ----- states only move forward

  /** Running, then Cancelled or not, then Done. */
  predicate NotBefore(k: TaskState, k': TaskState) {
    k'.Done? || k' == k || (k.Running? && k'.Cancelled?)
  }

  predicate RecordForward(k: Task, k': Task) {
    && NotBefore(k.done, k'.done)
    && k.dropped <= k'.dropped
    && (k.done.Done? && k.queued ==> k'.queued)
  }

  ghost predicate Forward(s: Sys, s': Sys) {
    forall t :: t in s.tasks ==> t in s'.tasks && RecordForward(s.tasks[t], s'.tasks[t])
  }

  lemma OpForward(s: Sys, u: Tid)
    requires OpEnabled(s, u)
    ensures Forward(s, OpEffect(s, u))
  {
    hide Q.Step, Q.Enabled, W.Step, W.Enabled, QueueHeld, WakeAction, PushAction;
  }

  lemma StartForward(s: Sys, a: Action)
    requires Enabled(s, a)
    requires a.CloneWaker? || a.DropWaker? || a.StartWake? || a.PushTask? || a.StartCancel? || a.EndDrop?
    ensures Forward(s, Step(s, a))
  {
    hide Q.Step, Q.Enabled, W.Step, W.Enabled;
  }

  lemma PollForward(s: Sys, a: Action)
    requires Enabled(s, a) && (a.EndDrive? || a.Detach? || a.EndTurn?)
    ensures Forward(s, Step(s, a))
  {
    hide Q.Step, Q.Enabled, W.Step, W.Enabled;
  }

  lemma DispatchForward(s: Sys)
    requires Enabled(s, Dispatch)
    ensures Forward(s, Step(s, Dispatch))
  {
    hide Q.Step, Q.Enabled, W.Step, W.Enabled;
  }

  lemma OtherForward(s: Sys, a: Action)
    requires Enabled(s, a)
    requires a.StartPoll? || a.RegisterStep? || a.StartClear? || a.ClearNext? || a.DropSchedular?
    ensures Forward(s, Step(s, a))
  {
    hide Q.Step, Q.Enabled, W.Step, W.Enabled;
  }

  lemma PopForward(s: Sys, a: Q.Action)
    requires Enabled(s, PopStep(a))
    ensures Forward(s, PopEffect(s, a))
  {
    PopShape(s, a);
    hide PopEffect, Q.Step, Q.Enabled;
  }

  /** A task's state never goes back, whatever step is taken. */
  lemma StepForward(s: Sys, a: Action)
    requires Enabled(s, a)
    ensures Forward(s, Step(s, a))
  {
    hide Forward, OpEffect, PopEffect;
    match a
    case OpStep(u) => OpForward(s, u);
    case PopStep(qa) => PopForward(s, qa);
    case Dispatch => DispatchForward(s);
    case EndDrive(_) => PollForward(s, a);
    case Detach => PollForward(s, a);
    case EndTurn => PollForward(s, a);
    case StartPoll(_) => OtherForward(s, a);
    case RegisterStep(_) => OtherForward(s, a);
    case StartClear => OtherForward(s, a);
    case ClearNext(_) => OtherForward(s, a);
    case DropSchedular => OtherForward(s, a);
    case _ => StartForward(s, a);
  }
}
