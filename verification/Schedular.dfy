/**
 The tree scheduler as a transition system.  It embeds the queue and the atomic waker, whose atomic
 operations are its steps, and adds the tasks with their strong counts, `queued` flags and states,
 the all-list, the poll loop, cancel tokens and the wakers that the tasks handed out.

 One consumer thread runs `push_cancellable`, `poll`, `CancelToken::drop` and `clear`; any number of
 other threads run wakers.  A `waker.wake_by_ref()` is a clone followed by a wake, as in the source.
 Ids of tasks are never used again, so a freed task is one whose count is 0.
 */
module Schedular {
  import opened Wrappers
  import Q = Queue
  import W = AtomicWaker

  type Tid = nat
  type TaskId = nat
  type HandleId = nat

  const CONSUMER: Tid := 0

  datatype TaskState = Running | Cancelled | Done

  /** `dropped` counts how often the task's future was dropped. */
  datatype Task = Task(done: TaskState, queued: bool, count: int, dropped: nat)

  /** Which function an operation that queues a task belongs to. */
  datatype Kind = Wake | Cancel | New

  /** Where a thread is in an operation on `task`; the wake of a kind comes before or after its push. */
  datatype Op =
    | TryQueue(task: TaskId, kind: Kind)
    | Upgrade(task: TaskId, kind: Kind)
    | Release(task: TaskId, kind: Kind)
    | Signal(task: TaskId, kind: Kind)
    | Waking(task: TaskId, kind: Kind)
    | Store(task: TaskId, kind: Kind)
    | Push(task: TaskId, kind: Kind)

  /** Where the consumer is in `poll` or `clear`. */
  datatype Base =
    | Out
    | Registering
    | Popping
    | Got(task: TaskId)
    | Driving(task: TaskId)
    | Removing(task: TaskId, driven: bool)
    | Dropping(task: TaskId, returning: bool)
    | ClearList
    | ClearRemoving(task: TaskId)
    | ClearPop
    | ClearGot(task: TaskId)

  /**
   History: the last poll answered Pending and no other began; a task was pushed since it returned;
   the length of the list when it began, and how many tasks were pushed while it ran; how many
   entries it popped, and how many of these were of cancelled and of done tasks; the tasks that any
   poll popped when they were done; and whether `clear` ended and neither a push nor a poll came since.
   */
  datatype History = History(
    pending: bool, outside: bool, start: nat, created: nat,
    pops: nat, cancels: nat, dones: nat, drained: set<TaskId>, cleared: bool)

  datatype Sys = Sys(
    q: Q.State,
    w: W.State,
    tasks: map<TaskId, Task>,
    all: set<TaskId>,                // the tasks of the all-list
    len: int,
    handles: map<HandleId, TaskId>,  // the wakers in the hands of futures and other threads
    tokens: set<TaskId>,             // the tasks whose cancel token is alive
    ops: map<Tid, Op>,
    frames: seq<TaskId>,             // cancels whose future is being dropped, innermost last
    base: Base,
    leaked: set<TaskId>,             // history: tasks drained through poll's Cancelled branch
    alive: bool,                     // the scheduler still holds the queue
    panicked: bool,                  // an assert of `poll` failed
    iteration: nat,
    yielded: nat,
    hist: History)

  datatype Action =
    | CloneWaker(from: Option<HandleId>, to: HandleId)
    | DropWaker(h: HandleId)
    | StartWake(h: HandleId, u: Tid)
    | OpStep(u: Tid)
    | PushTask(task: TaskId)
    | StartCancel(task: TaskId)
    | EndDrop
    | StartPoll(waker: W.Waker)
    | RegisterStep(wa: W.Action)
    | PopStep(qa: Q.Action)
    | Dispatch
    | EndDrive(ready: bool)
    | Detach
    | EndTurn
    | StartClear
    | ClearNext(task: TaskId)
    | DropSchedular

  function Init(): Sys {
    Sys(Q.Init(), W.Init(), map[], {}, 0, map[], {}, map[], [], Out, {}, true, false, 0, 0,
        History(false, false, 0, 0, 0, 0, 0, {}, false))
  }

  // ----- when a step can be taken

  /** The consumer runs the code of `poll`, `clear` or its caller, not a nested operation. */
  predicate PollerTurn(s: Sys) {
    CONSUMER !in s.ops && s.frames == []
  }

  /** The consumer runs code of a future, its drop, or the caller. */
  predicate UserCode(s: Sys) {
    CONSUMER !in s.ops && (s.base.Out? || s.base.Driving? || s.base.Removing? || s.base.ClearRemoving?)
  }

  predicate IsRegisterAction(a: W.Action) {
    a.StoreCell? || a.Commit? || a.Reclaim? || a.SwapState? || a.CallSelf?
  }

  predicate IsPopAction(a: Q.Action) {
    !a.Store? && !a.Swap? && !a.Link?
  }

  /** The micro-step of the queue an operation in `Push` takes next. */
  function PushAction(s: Sys, u: Tid): Q.Action {
    if u in s.q.producers && s.q.producers[u].Cleared? then Q.Swap(u) else Q.Link(u)
  }

  /** The micro-step of the atomic waker an operation in `Waking` takes next. */
  function WakeAction(s: Sys, u: Tid): W.Action {
    if u in s.w.wakers && s.w.wakers[u].Locked? then W.TakeCell(u)
    else if u in s.w.wakers && s.w.wakers[u].Releasing? then W.FetchAnd(u)
    else W.Call(u)
  }

  predicate OpEnabled(s: Sys, u: Tid) {
    && u in s.ops
    && match s.ops[u]
       case TryQueue(t, _) => t in s.tasks
       case Release(t, _) => t in s.tasks
       case Signal(_, _) => W.Enabled(s.w, W.FetchOr(u))
       case Waking(_, _) => W.Enabled(s.w, WakeAction(s, u))
       case Store(t, _) => Q.Enabled(s.q, Q.Store(u, t))
       case Push(_, _) => Q.Enabled(s.q, PushAction(s, u))
       case _ => true
  }

  predicate Enabled(s: Sys, a: Action) {
    match a
    case CloneWaker(from, to) =>
      && to !in s.handles
      && (match from
          case Some(h) => h in s.handles && s.handles[h] in s.tasks
          case None => s.base.Driving? && s.base.task in s.tasks)
    case DropWaker(h) => h in s.handles && s.handles[h] in s.tasks
    case StartWake(h, u) => h in s.handles && u !in s.ops && u != CONSUMER
    case OpStep(u) => OpEnabled(s, u)
    case PushTask(t) => t !in s.tasks && PollerTurn(s) && (s.base.Out? || s.base.Driving?) && s.alive
    case StartCancel(t) => t in s.tokens && t in s.tasks && UserCode(s) && s.base != Driving(t)
    case EndDrop => CONSUMER !in s.ops && s.frames != []
    case StartPoll(_) => PollerTurn(s) && s.base.Out? && s.alive && s.w.register.Idle?
    case RegisterStep(wa) => s.base.Registering? && IsRegisterAction(wa) && W.Enabled(s.w, wa)
    case PopStep(qa) => (s.base.Popping? || s.base.ClearPop?) && IsPopAction(qa) && Q.Enabled(s.q, qa)
    case Dispatch => (s.base.Got? || s.base.ClearGot?) && s.base.task in s.tasks
    case EndDrive(_) => PollerTurn(s) && s.base.Driving? && s.base.task in s.tasks
    case Detach => PollerTurn(s) && (s.base.Removing? || s.base.ClearRemoving?) && s.base.task in s.tasks
    case EndTurn => s.base.Dropping? && s.base.task in s.tasks
    case StartClear => PollerTurn(s) && s.base.Out? && s.alive
    case ClearNext(t) => s.base.ClearList? && (s.all != {} ==> t in s.all && t in s.tasks)
    case DropSchedular => PollerTurn(s) && s.base.Out? && s.alive && s.all == {} && s.hist.cleared
  }

  // ----- what a step does

  function AddCount(s: Sys, t: TaskId, d: int): Sys
    requires t in s.tasks
  {
    s.(tasks := s.tasks[t := s.tasks[t].(count := s.tasks[t].count + d)])
  }

  function SetOp(s: Sys, u: Tid, op: Op): Sys {
    s.(ops := s.ops[u := op])
  }

  function EndOp(s: Sys, u: Tid): Sys {
    s.(ops := s.ops - {u})
  }

  /** `Weak::upgrade` succeeds while the scheduler or an operation on another thread holds the queue. */
  predicate QueueHeld(s: Sys) {
    || s.alive
    || exists u :: u in s.ops && s.ops[u].kind != New
                   && (s.ops[u].Signal? || s.ops[u].Waking? || s.ops[u].Store? || s.ops[u].Push?)
  }

  /** What follows the wake of an operation: a cancel pushes then, a waker is finished. */
  function AfterWake(op: Op): Option<Op> {
    if op.kind == Cancel then Some(Store(op.task, Cancel)) else None
  }

  /** What follows its push: a waker wakes then, a cancel or a new task is finished. */
  function AfterPush(op: Op): Option<Op> {
    if op.kind == Wake then Some(Signal(op.task, Wake)) else None
  }

  function PutOp(s: Sys, u: Tid, op: Option<Op>): Sys {
    match op
    case Some(o) => SetOp(s, u, o)
    case None => EndOp(s, u)
  }

  /** The compare-exchange of the `queued` flag. */
  function TryQueueEffect(s: Sys, u: Tid, t: TaskId, kind: Kind): Sys
    requires t in s.tasks
  {
    if s.tasks[t].queued then SetOp(s, u, Release(t, kind))
    else SetOp(s.(tasks := s.tasks[t := s.tasks[t].(queued := true)]), u, Upgrade(t, kind))
  }

  function UpgradeEffect(s: Sys, u: Tid, t: TaskId, kind: Kind): Sys {
    SetOp(s, u, if !QueueHeld(s) then Release(t, kind) else if kind == Cancel then Signal(t, kind) else Store(t, kind))
  }

  function ReleaseEffect(s: Sys, u: Tid, t: TaskId): Sys
    requires t in s.tasks
  {
    EndOp(AddCount(s, t, -1), u)
  }

  /** The fetch_or that begins `wake`. */
  function SignalEffect(s: Sys, u: Tid): Sys
    requires u in s.ops && W.Enabled(s.w, W.FetchOr(u))
  {
    var w := W.Step(s.w, W.FetchOr(u));
    PutOp(s.(w := w), u,
          if u in w.wakers then Some(Waking(s.ops[u].task, s.ops[u].kind)) else AfterWake(s.ops[u]))
  }

  /** The rest of `wake`. */
  function WakingEffect(s: Sys, u: Tid): Sys
    requires u in s.ops && W.Enabled(s.w, WakeAction(s, u))
  {
    var w := W.Step(s.w, WakeAction(s, u));
    PutOp(s.(w := w), u, if u in w.wakers then Some(s.ops[u]) else AfterWake(s.ops[u]))
  }

  /** The null store that begins `push`. */
  function StoreEffect(s: Sys, u: Tid, t: TaskId, kind: Kind): Sys
    requires Q.Enabled(s.q, Q.Store(u, t))
  {
    SetOp(s.(q := Q.Step(s.q, Q.Store(u, t))), u, Push(t, kind))
  }

  /** The head swap and the link of `push`; `push_cancellable` counts its task in `len` after it. */
  function PushEffect(s: Sys, u: Tid): Sys
    requires u in s.ops && Q.Enabled(s.q, PushAction(s, u))
  {
    var q := Q.Step(s.q, PushAction(s, u));
    var ends := u !in q.producers;
    PutOp(s.(q := q, len := s.len + if ends && s.ops[u].kind == New then 1 else 0), u,
          if ends then AfterPush(s.ops[u]) else Some(s.ops[u]))
  }

  function OpEffect(s: Sys, u: Tid): Sys
    requires OpEnabled(s, u)
  {
    match s.ops[u]
    case TryQueue(t, kind) => TryQueueEffect(s, u, t, kind)
    case Upgrade(t, kind) => UpgradeEffect(s, u, t, kind)
    case Release(t, _) => ReleaseEffect(s, u, t)
    case Signal(_, _) => SignalEffect(s, u)
    case Waking(_, _) => WakingEffect(s, u)
    case Store(t, kind) => StoreEffect(s, u, t, kind)
    case Push(_, _) => PushEffect(s, u)
  }

  /** A future, or its own context while it is driven, clones a waker. */
  function CloneEffect(s: Sys, t: TaskId, to: HandleId): Sys
    requires t in s.tasks
  {
    AddCount(s, t, 1).(handles := s.handles[to := t])
  }

  function DropEffect(s: Sys, h: HandleId): Sys
    requires h in s.handles && s.handles[h] in s.tasks
  {
    AddCount(s, s.handles[h], -1).(handles := s.handles - {h})
  }

  function StartWakeEffect(s: Sys, h: HandleId, u: Tid): Sys
    requires h in s.handles
  {
    SetOp(s, u, TryQueue(s.handles[h], Wake)).(handles := s.handles - {h})
  }

  /** `push_cancellable`, up to the push to the queue: one count each for list, queue and token. */
  function PushTaskEffect(s: Sys, t: TaskId): Sys {
    SetOp(s, CONSUMER, Store(t, New)).(
      tasks := s.tasks[t := Task(Running, true, 3, 0)],
      all := s.all + {t},
      tokens := s.tokens + {t},
      hist := s.hist.(outside := s.hist.outside || s.base.Out?, created := s.hist.created + 1, cleared := false))
  }

  /** `CancelToken::drop`: if the task is done only its count is released, else its future goes first. */
  function StartCancelEffect(s: Sys, t: TaskId): Sys
    requires t in s.tasks
  {
    if !s.tasks[t].done.Running? then SetOp(s, CONSUMER, Release(t, Cancel)).(tokens := s.tokens - {t})
    else s.(tokens := s.tokens - {t}, frames := s.frames + [t],
            tasks := s.tasks[t := s.tasks[t].(done := Cancelled, dropped := s.tasks[t].dropped + 1)])
  }

  function EndDropEffect(s: Sys): Sys
    requires s.frames != []
  {
    SetOp(s, CONSUMER, TryQueue(s.frames[|s.frames| - 1], Cancel)).(frames := s.frames[..|s.frames| - 1])
  }

  function StartPollEffect(s: Sys, waker: W.Waker): Sys
    requires W.Enabled(s.w, W.Begin(waker))
  {
    if s.all == {} then s.(hist := s.hist.(pending := false))
    else
      var w := W.Step(s.w, W.Begin(waker));
      s.(w := w, base := if w.register.Idle? then Popping else Registering,
         iteration := 0, yielded := 0, hist := History(false, false, |s.all|, 0, 0, 0, 0, s.hist.drained, false))
  }

  function RegisterEffect(s: Sys, wa: W.Action): Sys
    requires W.Enabled(s.w, wa)
  {
    var w := W.Step(s.w, wa);
    s.(w := w, base := if w.register.Idle? then Popping else Registering)
  }

  /** Marks a task as done and queued, and drops its future if that is still there. */
  function MarkDone(s: Sys, t: TaskId): Sys
    requires t in s.tasks
  {
    var k := s.tasks[t];
    s.(tasks := s.tasks[t := k.(done := Done, queued := true, dropped := k.dropped + if k.done.Running? then 1 else 0)])
  }

  /** `cx.waker().wake_by_ref()`. */
  function NotifyParent(s: Sys): Sys {
    s.(w := s.w.(woken := true))
  }

  /** `poll` returns to its caller. */
  function Return(s: Sys, pending: bool): Sys {
    s.(base := Out, hist := s.hist.(pending := pending, outside := false))
  }

  /** One step of `pop`, and what `poll` or `clear` makes of the answer. */
  function PopEffect(s: Sys, a: Q.Action): Sys
    requires Q.Enabled(s.q, a)
  {
    var s' := s.(q := Q.Step(s.q, a));
    match Q.Answered(s.q, a)
    case None => s'
    case Some(answer) => if s.base.Popping? then PollAnswered(s', answer) else ClearAnswered(s', answer)
  }

  function PollAnswered(s: Sys, answer: Q.Answer): Sys {
    match answer
    case Empty => Return(s, s.all != {})
    case Inconsistent => Return(NotifyParent(s), true)
    case Value(n) => if n.Item? then s.(base := Got(n.id), hist := s.hist.(pops := s.hist.pops + 1)) else s
  }

  function ClearAnswered(s: Sys, answer: Q.Answer): Sys {
    match answer
    case Empty => s.(base := Out, hist := s.hist.(cleared := true))
    case Inconsistent => s
    case Value(n) => if n.Item? then s.(base := ClearGot(n.id)) else s
  }

  /** What `poll` does with a task it popped. */
  function DispatchEffect(s: Sys, t: TaskId): Sys
    requires t in s.tasks
  {
    match s.tasks[t].done
    case Cancelled =>
      MarkDone(s, t).(base := Removing(t, false), leaked := s.leaked + {t},
                      hist := s.hist.(cancels := s.hist.cancels + 1))
    case Done =>
      AddCount(s, t, -1).(base := Popping,
                          hist := s.hist.(dones := s.hist.dones + 1, drained := s.hist.drained + {t}))
    case Running =>
      s.(tasks := s.tasks[t := s.tasks[t].(queued := false)], base := Driving(t),
         panicked := s.panicked || !s.tasks[t].queued, iteration := s.iteration + 1)
  }

  function ClearDispatchEffect(s: Sys, t: TaskId): Sys
    requires t in s.tasks
  {
    AddCount(s, t, -1).(base := ClearPop)
  }

  /** The driven future answered: it is removed, or polling goes on, or yields to the parent. */
  function EndDriveEffect(s: Sys, t: TaskId, ready: bool): Sys
    requires t in s.tasks
  {
    if ready then MarkDone(s, t).(base := Removing(t, true))
    else
      var yielded := s.yielded + if s.tasks[t].queued then 1 else 0;
      if yielded > 2 || s.iteration > s.len
      then NotifyParent(s).(yielded := yielded, base := Dropping(t, true))
      else s.(yielded := yielded, base := Dropping(t, false))
  }

  /** The end of `pop_task_all`. */
  function DetachEffect(s: Sys, t: TaskId): Sys
    requires t in s.tasks
  {
    AddCount(s, t, -1).(
      all := s.all - {t}, len := s.len - 1,
      base := match s.base
              case Removing(_, driven) => if driven then Dropping(t, false) else Popping
              case _ => ClearList)
  }

  /** The waker of a drive is dropped. */
  function EndTurnEffect(s: Sys, t: TaskId, returning: bool): Sys
    requires t in s.tasks
  {
    var s' := AddCount(s, t, -1);
    if returning then Return(s', true) else s'.(base := Popping)
  }

  function ClearNextEffect(s: Sys, t: TaskId): Sys
    requires s.all != {} ==> t in s.tasks
  {
    if s.all == {} then s.(base := ClearPop) else MarkDone(s, t).(base := ClearRemoving(t))
  }

  function Step(s: Sys, a: Action): Sys
    requires Enabled(s, a)
  {
    match a
    case CloneWaker(from, to) => CloneEffect(s, if from.Some? then s.handles[from.value] else s.base.task, to)
    case DropWaker(h) => DropEffect(s, h)
    case StartWake(h, u) => StartWakeEffect(s, h, u)
    case OpStep(u) => OpEffect(s, u)
    case PushTask(t) => PushTaskEffect(s, t)
    case StartCancel(t) => StartCancelEffect(s, t)
    case EndDrop => EndDropEffect(s)
    case StartPoll(waker) => StartPollEffect(s, waker)
    case RegisterStep(wa) => RegisterEffect(s, wa)
    case PopStep(qa) => PopEffect(s, qa)
    case Dispatch =>
      if s.base.Got? then DispatchEffect(s, s.base.task) else ClearDispatchEffect(s, s.base.task)
    case EndDrive(ready) => EndDriveEffect(s, s.base.task, ready)
    case Detach => DetachEffect(s, s.base.task)
    case EndTurn => EndTurnEffect(s, s.base.task, s.base.returning)
    case StartClear => s.(base := ClearList, hist := s.hist.(pending := false))
    case ClearNext(t) => ClearNextEffect(s, t)
    case DropSchedular => s.(alive := false)
  }
}
