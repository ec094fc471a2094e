/**
 The tree runtime: the scheduler and the tasks of the root stack in one system. A scope is a task of the
 scheduler whose last poll fills a place, and the place lies in the future that awaits the scope: in a
 frame of the root stack, or in another task of the scheduler.
 */
module TreeRuntime {
  import opened Wrappers
  import opened Schedular
  import opened SchedularInv
  import opened SchedularTasks
  import opened SchedularWake
  import opened SchedularRuns
  import SchedularEnd
  import SchedularList
  import T = SchedularTurns
  import SchedularClear
  import SchedularLeak
  import Q = Queue
  import W = AtomicWaker

  /** Where the driver is; the last three are the runner being dropped. */
  datatype Driver = Resting | Polling | Root | Clearing | Unwinding | Ended

  /** Whose future holds the place of a scope. */
  datatype Owner = InFrame(frame: nat) | InTask(task: TaskId)

  /**
   `frames` are the tasks of the root stack, the root first, and `filled` the places that were given a
   result.
   */
  datatype Tree = Tree(
    sys: Sys, driver: Driver, frames: seq<nat>, next: nat,
    owners: map<TaskId, Owner>, filled: set<TaskId>)

  datatype TreeAction = Drive(waker: W.Waker) | Work(a: Action) | Call | Finish | Return | DropRunner

  function InitTree(): Tree {
    Tree(Init(), Resting, [0], 1, map[], {})
  }

  predicate Dropping(d: Driver) {
    d.Clearing? || d.Unwinding? || d.Ended?
  }

  /** No living scope has its place in that future. */
  ghost predicate NoScopeIn(r: Tree, o: Owner) {
    forall t :: t in r.sys.tokens && t in r.owners ==> r.owners[t] != o
  }

  /** The driver alone begins polls and clears, and a future that is dropped drops its scopes first. */
  ghost predicate MayWork(r: Tree, a: Action)
    requires Enabled(r.sys, a)
  {
    match a
    case StartPoll(_) => false
    case StartClear => false
    case DropSchedular => false
    case ClearNext(_) => r.driver.Clearing?
    case PushTask(_) => r.sys.base.Driving? || (r.driver.Root? && r.frames != [])
    case Detach => NoScopeIn(r, InTask(r.sys.base.task))
    case EndDrop => NoScopeIn(r, InTask(r.sys.frames[|r.sys.frames| - 1]))
    case _ => true
  }

  ghost predicate CanStep(r: Tree, b: TreeAction) {
    match b
    case Drive(waker) => r.driver.Resting? && r.frames != [] && r.sys.base.Out? && Enabled(r.sys, StartPoll(waker))
    case Work(a) => Enabled(r.sys, a) && MayWork(r, a)
    case Call => r.driver.Root? && PollerTurn(r.sys)
    case Finish =>
      (r.driver.Root? || r.driver.Unwinding?) && PollerTurn(r.sys) && r.frames != [] &&
      NoScopeIn(r, InFrame(r.frames[|r.frames| - 1]))
    case Return => r.driver.Root? && PollerTurn(r.sys)
    case DropRunner => r.driver.Resting? && Enabled(r.sys, StartClear)
  }

  /** A poll that has ended gives the turn to the root, unless it answered Pending; after a clear the frames go. */
  function AfterWork(r: Tree, s': Sys): Driver {
    if !s'.base.Out? then r.driver
    else match r.driver
      case Polling => if s'.hist.pending then Resting else Root
      case Clearing => if r.frames == [] then Ended else Unwinding
      case _ => r.driver
  }

  function OwnerOf(r: Tree): Owner {
    if r.sys.base.Driving? then InTask(r.sys.base.task)
    else if r.frames != [] then InFrame(r.frames[|r.frames| - 1])
    else InFrame(0)
  }

  ghost function StepTree(r: Tree, b: TreeAction): Tree
    requires CanStep(r, b)
  {
    match b
    case Drive(waker) =>
      if r.sys.all == {} then r.(driver := Root)
      else r.(sys := Step(r.sys, StartPoll(waker)), driver := Polling)
    case Work(a) =>
      var s' := Step(r.sys, a);
      r.(sys := s', driver := AfterWork(r, s'),
         owners := if a.PushTask? then r.owners[a.task := OwnerOf(r)] else r.owners,
         filled := r.filled + (if a == EndDrive(true) then {r.sys.base.task} else {}))
    case Call => r.(frames := r.frames + [r.next], next := r.next + 1)
    case Finish =>
      var frames := r.frames[..|r.frames| - 1];
      r.(frames := frames, driver := if r.driver.Unwinding? && frames == [] then Ended else r.driver)
    case Return => r.(driver := Resting)
    case DropRunner => r.(sys := Step(r.sys, StartClear), driver := Clearing)
  }

  ghost function ExecTree(run: seq<TreeAction>): Option<Tree> {
    if run == [] then Some(InitTree())
    else
      var before := ExecTree(run[..|run| - 1]);
      var b := run[|run| - 1];
      if before.Some? && CanStep(before.value, b) then Some(StepTree(before.value, b)) else None
  }

  // ----- which steps end a task

  /** The task whose state a step may change. */
  function Touched(s: Sys, a: Action): Option<TaskId>
    requires Enabled(s, a)
  {
    match a
    case PushTask(t) => Some(t)
    case StartCancel(t) => Some(t)
    case Dispatch => Some(s.base.task)
    case EndDrive(ready) => if ready then Some(s.base.task) else None
    case ClearNext(t) => if s.all == {} then None else Some(t)
    case _ => None
  }

  /** What becomes of its state. */
  function StateAfter(s: Sys, a: Action, k: TaskState): TaskState
    requires Enabled(s, a)
  {
    match a
    case PushTask(_) => Running
    case StartCancel(_) => if k.Running? then Cancelled else k
    case Dispatch => if k.Cancelled? && s.base.Got? then Done else k
    case _ => Done
  }

  function TokensAfter(s: Sys, a: Action): set<TaskId> {
    match a
    case PushTask(t) => s.tokens + {t}
    case StartCancel(t) => s.tokens - {t}
    case _ => s.tokens
  }

  /** How the states of the tasks and the set of living scopes change. */
  ghost predicate StatesMoved(s: Sys, a: Action)
    requires Enabled(s, a)
  {
    var s', x := Step(s, a), Touched(s, a);
    && s'.tokens == TokensAfter(s, a)
    && (a.PushTask? ==> a.task !in s.tasks)
    && (x.Some? && !a.PushTask? ==> x.value in s.tasks)
    && (x.Some? ==> x.value in s'.tasks)
    && (x.Some? ==> s'.tasks[x.value].done == StateAfter(s, a, if x.value in s.tasks then s.tasks[x.value].done else Running))
    && (forall t :: t in s.tasks && Some(t) != x ==> t in s'.tasks && s'.tasks[t].done == s.tasks[t].done)
    && (forall t :: t in s'.tasks && Some(t) != x ==> t in s.tasks)
  }

  lemma StatesMove(s: Sys, a: Action)
    requires Enabled(s, a)
    ensures StatesMoved(s, a)
  {
    if a.OpStep? {
      OpStates(s, a.u);
    } else if a.PopStep? {
      PopStates(s, a.qa);
    } else if a.CloneWaker? || a.DropWaker? || a.StartWake? || a.EndDrop? {
      StartStates(s, a);
    } else if a.PushTask? || a.StartCancel? {
      TokenStates(s, a);
    } else if a.Dispatch? || a.EndDrive? || a.ClearNext? {
      TurnStates(s, a);
    } else {
      RestStates(s, a);
    }
  }

  lemma OpStates(s: Sys, u: Tid)
    requires OpEnabled(s, u)
    ensures StatesMoved(s, OpStep(u))
  {
    var op := s.ops[u];
    if op.Signal? {
      T.SignalShape(s, u);
      hide SignalEffect, W.Enabled;
    } else if op.Waking? {
      T.WakingShape(s, u);
      hide WakingEffect, W.Enabled, WakeAction;
    } else if op.Store? {
      T.StoreShape(s, u, op.task, op.kind);
      hide StoreEffect, Q.Enabled;
    } else if op.Push? {
      T.PushShape(s, u);
      hide PushEffect, Q.Enabled, PushAction;
    } else {
      PlainStates(s, u);
      hide OpEffect;
    }
  }

  lemma PlainStates(s: Sys, u: Tid)
    requires OpEnabled(s, u) && (s.ops[u].TryQueue? || s.ops[u].Upgrade? || s.ops[u].Release?)
    ensures StatesMoved(s, OpStep(u))
  {
    hide QueueHeld;
  }

  lemma PopStates(s: Sys, qa: Q.Action)
    requires Enabled(s, PopStep(qa))
    ensures StatesMoved(s, PopStep(qa))
  {
    PopShape(s, qa);
    hide PopEffect, Q.Step, Q.Enabled;
  }

  lemma StartStates(s: Sys, a: Action)
    requires Enabled(s, a) && (a.CloneWaker? || a.DropWaker? || a.StartWake? || a.EndDrop?)
    ensures StatesMoved(s, a)
  {
    hide Q.Step, Q.Enabled, W.Step, W.Enabled;
  }

  lemma TokenStates(s: Sys, a: Action)
    requires Enabled(s, a) && (a.PushTask? || a.StartCancel?)
    ensures StatesMoved(s, a)
  {
  }

  lemma TurnStates(s: Sys, a: Action)
    requires Enabled(s, a) && (a.Dispatch? || a.EndDrive? || a.ClearNext?)
    ensures StatesMoved(s, a)
  {
    if a.Dispatch? {
      DispatchStates(s);
    } else if a.EndDrive? {
      EndDriveStates(s, a.ready);
    } else {
      ClearNextStates(s, a.task);
    }
  }

  lemma DispatchStates(s: Sys)
    requires Enabled(s, Dispatch)
    ensures StatesMoved(s, Dispatch)
  {
  }

  lemma EndDriveStates(s: Sys, ready: bool)
    requires Enabled(s, EndDrive(ready))
    ensures StatesMoved(s, EndDrive(ready))
  {
  }

  lemma ClearNextStates(s: Sys, t: TaskId)
    requires Enabled(s, ClearNext(t))
    ensures StatesMoved(s, ClearNext(t))
  {
  }

  lemma RestStates(s: Sys, a: Action)
    requires Enabled(s, a)
    requires a.StartPoll? || a.RegisterStep? || a.Detach? || a.EndTurn? || a.StartClear? || a.DropSchedular?
    ensures StatesMoved(s, a)
  {
    if a.Detach? || a.EndTurn? {
      CountStates(s, a);
    } else {
      hide Q.Step, Q.Enabled, W.Step, W.Enabled;
    }
  }

  lemma CountStates(s: Sys, a: Action)
    requires Enabled(s, a) && (a.Detach? || a.EndTurn?)
    ensures StatesMoved(s, a)
  {
  }

  // ----- where the consumer is

  /** A step of other threads, or of the code of futures and callers. */
  predicate ByCode(a: Action) {
    a.OpStep? || a.CloneWaker? || a.DropWaker? || a.StartWake? || a.PushTask? || a.StartCancel? || a.EndDrop?
  }

  lemma CodeKeepsBase(s: Sys, a: Action)
    requires Enabled(s, a) && ByCode(a)
    ensures Step(s, a).base == s.base && Step(s, a).alive == s.alive
  {
    if a.OpStep? {
      T.OpElsewhere(s, a.u);
      hide OpEffect;
    } else if a.CloneWaker? || a.DropWaker? {
      SchedularClear.DropBase(s, a);
      HandleAlive(s, a);
      hide Step;
    } else {
      StartShape(s, a);
      SchedularLeak.StartAlive(s, a);
      hide Step;
    }
  }

  lemma HandleAlive(s: Sys, a: Action)
    requires Enabled(s, a) && (a.CloneWaker? || a.DropWaker?)
    ensures Step(s, a).alive == s.alive
  {
    hide Q.Step, Q.Enabled, W.Step, W.Enabled;
  }

  predicate InClear(b: Base) {
    b.ClearList? || b.ClearRemoving? || b.ClearPop? || b.ClearGot?
  }

  /** Work between polls stays between polls; a poll, and a clear, go on or return. */
  ghost predicate SamePlace(s: Sys, s': Sys) {
    && (s.base.Out? ==> s'.base.Out?)
    && (InPoll(s.base) ==> InPoll(s'.base) || s'.base.Out?)
    && (InClear(s.base) ==> InClear(s'.base) || s'.base.Out?)
    && s'.alive == s.alive
  }

  predicate IsWork(a: Action) {
    !a.StartPoll? && !a.StartClear? && !a.DropSchedular?
  }

  lemma WorkPlace(s: Sys, a: Action)
    requires Enabled(s, a) && IsWork(a)
    ensures SamePlace(s, Step(s, a))
  {
    if ByCode(a) {
      CodeKeepsBase(s, a);
      hide Step, Enabled;
    } else if a.PopStep? {
      PopShape(s, a.qa);
      PopPlace(s, a.qa);
      hide PopEffect;
    } else {
      TurnPlace(s, a);
      hide Step, Enabled;
    }
  }

  lemma PopPlace(s: Sys, a: Q.Action)
    requires Enabled(s, PopStep(a))
    ensures SamePlace(s, PopEffect(s, a))
  {
    hide Q.Step, Q.Enabled, Q.Answered;
  }

  lemma TurnPlace(s: Sys, a: Action)
    requires Enabled(s, a) && IsWork(a) && !ByCode(a) && !a.PopStep?
    ensures SamePlace(s, Step(s, a))
  {
    hide Q.Step, Q.Enabled, W.Step, W.Enabled;
  }

  /** The future of the task exists: it runs, or it is being dropped. */
  ghost predicate TaskAlive(s: Sys, x: TaskId) {
    x in s.tasks && (s.tasks[x].done.Running? || RemovingTask(s.base) == Some(x) || x in s.frames)
  }

  lemma CancelAlive(s: Sys, a: Action, x: TaskId)
    requires Enabled(s, a) && (a.StartCancel? || a.EndDrop?) && TaskAlive(s, x)
    requires a.EndDrop? ==> s.frames[|s.frames| - 1] != x
    ensures TaskAlive(Step(s, a), x)
  {
    StatesMove(s, a);
    StartShape(s, a);
    hide Step;
    if a.EndDrop? && x in s.frames {
      var i :| 0 <= i < |s.frames| && s.frames[i] == x;
      assert Step(s, a).frames[i] == x;
    }
    if a.StartCancel? && s.tasks[x].done.Running? && a.task == x {
      assert Step(s, a).frames == s.frames + [x];
    }
  }

  lemma SameFrames(s: Sys, a: Action)
    requires Enabled(s, a) && !a.StartCancel? && !a.EndDrop?
    ensures Step(s, a).frames == s.frames
  {
    if a.OpStep? {
      T.OpElsewhere(s, a.u);
      hide OpEffect;
    } else if ChangesOps(a) {
      StartShape(s, a);
      hide Step;
    } else {
      SchedularLeak.OtherFrames(s, a);
      hide Step;
    }
  }

  /** A future goes only when its drop has come to its end. */
  lemma AliveStays(s: Sys, a: Action, x: TaskId)
    requires Enabled(s, a) && IsWork(a) && TaskAlive(s, x)
    requires a.EndDrop? ==> s.frames[|s.frames| - 1] != x
    requires a.Detach? ==> s.base.task != x
    ensures TaskAlive(Step(s, a), x)
  {
    if a.StartCancel? || a.EndDrop? {
      CancelAlive(s, a, x);
    } else {
      StatesMove(s, a);
      SameFrames(s, a);
      if ByCode(a) {
        CodeKeepsBase(s, a);
        hide Step, Enabled;
      } else if a.Detach? || a.RegisterStep? || a.PopStep? || a.EndTurn? || a.Dispatch? {
        assert RemovingTask(s.base) == Some(x) ==> a.Detach?;
        hide Step, Enabled;
      } else {
        EndAlive(s, a, x);
        hide Step, Enabled;
      }
    }
  }

  lemma EndAlive(s: Sys, a: Action, x: TaskId)
    requires Enabled(s, a) && (a.EndDrive? || a.ClearNext?) && TaskAlive(s, x)
    ensures TaskAlive(Step(s, a), x)
  {
  }

  // ----- scopes and their owners

  ghost predicate OwnerAlive(r: Tree, o: Owner) {
    match o
    case InFrame(f) => f in r.frames
    case InTask(x) => TaskAlive(r.sys, x)
  }

  /**
   A living scope has a place in a future that exists. A future that runs belongs to a living scope. A
   filled place is that of a done task; and until the runner is dropped, while a scope lives its task is
   not cancelled, and its place is filled exactly when that task is done.
   */
  ghost predicate ScopeOk(r: Tree, t: TaskId) {
    PlaceOwned(r, t) && PlaceFilled(r, t)
  }

  ghost predicate PlaceOwned(r: Tree, t: TaskId) {
    var s := r.sys;
    && (t in s.tokens ==> t in s.tasks && t in r.owners && OwnerAlive(r, r.owners[t]))
    && (t in s.tasks && s.tasks[t].done.Running? ==> t in s.tokens)
  }

  ghost predicate PlaceFilled(r: Tree, t: TaskId) {
    var s := r.sys;
    && (t in r.filled ==> t in s.tasks && s.tasks[t].done.Done?)
    && (!Dropping(r.driver) && t in s.tokens && t in s.tasks ==>
          !s.tasks[t].done.Cancelled? && (s.tasks[t].done.Done? <==> t in r.filled))
  }

  ghost predicate ScopesOk(r: Tree) {
    forall t :: ScopeOk(r, t)
  }

  /** Where the driver is, the consumer of the scheduler is. */
  ghost predicate DriverOk(r: Tree) {
    && r.sys.alive
    && match r.driver
       case Polling => InPoll(r.sys.base)
       case Clearing => InClear(r.sys.base)
       case _ => r.sys.base.Out?
  }

  /** Once the clear has ended the list is empty, and the end is where the frames have gone, too. */
  ghost predicate DropOk(r: Tree) {
    r.driver.Unwinding? || r.driver.Ended? ==> r.sys.all == {} && (r.driver.Ended? <==> r.frames == [])
  }

  ghost predicate TreeInv(r: Tree) {
    AllInv(r.sys) && ScopesOk(r) && DriverOk(r) && DropOk(r)
  }

  lemma OwnerStays(r: Tree, a: Action, t: TaskId)
    requires Enabled(r.sys, a) && MayWork(r, a) && t in r.sys.tokens && t in r.owners && OwnerAlive(r, r.owners[t])
    ensures OwnerAlive(StepTree(r, Work(a)), r.owners[t])
  {
    match r.owners[t]
    case InFrame(_) =>
    case InTask(x) => AliveStays(r.sys, a, x);
  }

  lemma NewOwner(r: Tree, t: TaskId)
    requires AllInv(r.sys) && Enabled(r.sys, PushTask(t)) && MayWork(r, PushTask(t))
    ensures OwnerAlive(StepTree(r, Work(PushTask(t))), OwnerOf(r))
  {
    if r.sys.base.Driving? {
      assert PlacesOk(r.sys);
      AliveStays(r.sys, PushTask(t), r.sys.base.task);
    }
  }

  lemma WorkOnScope(r: Tree, a: Action, t: TaskId)
    requires AllInv(r.sys) && Enabled(r.sys, a) && MayWork(r, a) && ScopeOk(r, t)
    ensures ScopeOk(StepTree(r, Work(a)), t)
  {
    StatesMove(r.sys, a);
    if a == PushTask(t) {
      NewOwner(r, t);
    } else if t in r.sys.tokens {
      OwnerStays(r, a, t);
    }
    DropStays(r, a);
    hide AllInv, Step, OwnerAlive, PlaceOwned, PlaceFilled, StatesMoved, MayWork;
    WorkOnOwned(r, a, t);
    WorkOnFilled(r, a, t);
  }

  lemma WorkOnOwned(r: Tree, a: Action, t: TaskId)
    requires Enabled(r.sys, a) && MayWork(r, a) && PlaceOwned(r, t) && StatesMoved(r.sys, a)
    requires a == PushTask(t) ==> OwnerAlive(StepTree(r, Work(a)), OwnerOf(r))
    requires a != PushTask(t) && t in r.sys.tokens ==> t in r.owners && OwnerAlive(StepTree(r, Work(a)), r.owners[t])
    ensures PlaceOwned(StepTree(r, Work(a)), t)
  {
    hide Step, OwnerAlive, NoScopeIn, Enabled, MayWork;
  }

  lemma WorkOnFilled(r: Tree, a: Action, t: TaskId)
    requires Enabled(r.sys, a) && MayWork(r, a) && PlaceFilled(r, t) && StatesMoved(r.sys, a)
    requires Dropping(r.driver) <==> Dropping(StepTree(r, Work(a)).driver)
    requires a.ClearNext? ==> Dropping(r.driver)
    ensures PlaceFilled(StepTree(r, Work(a)), t)
  {
    assert a.EndDrive? ==> r.sys.base.Driving?;
    hide Step, OwnerAlive, NoScopeIn, Enabled, MayWork, Dropping, AfterWork;
  }

  lemma DropStays(r: Tree, a: Action)
    requires Enabled(r.sys, a) && MayWork(r, a)
    ensures Dropping(r.driver) <==> Dropping(StepTree(r, Work(a)).driver)
    ensures a.ClearNext? ==> Dropping(r.driver)
  {
    hide Step;
  }

  lemma WorkOnScopes(r: Tree, a: Action)
    requires AllInv(r.sys) && ScopesOk(r) && Enabled(r.sys, a) && MayWork(r, a)
    ensures ScopesOk(StepTree(r, Work(a)))
  {
    forall t
      ensures ScopeOk(StepTree(r, Work(a)), t)
    {
      assert ScopeOk(r, t);
      WorkOnScope(r, a, t);
    }
  }

  /** With an empty list, every task has ended, so before the runner is dropped every living scope has its result. */
  lemma EmptyMeansFilled(r: Tree)
    requires AllInv(r.sys) && ScopesOk(r) && r.sys.all == {} && r.sys.base.Out? && !Dropping(r.driver)
    ensures forall t :: t in r.sys.tokens ==> t in r.filled
  {
    forall t | t in r.sys.tokens
      ensures t in r.filled
    {
      assert ScopeOk(r, t) && TaskAt(r.sys, t);
    }
  }

  // ----- every step keeps the invariant

  /** A turn of the driver leaves tasks and places as they are. */
  ghost predicate TurnOnly(r: Tree, r': Tree) {
    && r'.sys.tasks == r.sys.tasks && r'.sys.tokens == r.sys.tokens
    && r'.owners == r.owners && r'.filled == r.filled
    && (Dropping(r.driver) ==> Dropping(r'.driver))
    && forall t :: t in r.sys.tokens && t in r.owners && OwnerAlive(r, r.owners[t]) ==> OwnerAlive(r', r.owners[t])
  }

  lemma TurnKeepsScopes(r: Tree, r': Tree)
    requires ScopesOk(r) && TurnOnly(r, r')
    ensures ScopesOk(r')
  {
    hide OwnerAlive, Dropping;
    forall t
      ensures ScopeOk(r', t)
    {
      assert ScopeOk(r, t);
    }
  }

  lemma StartKeepsAlive(s: Sys, a: Action)
    requires Enabled(s, a) && (a.StartPoll? || a.StartClear?)
    ensures var s' := Step(s, a);
      && s'.tasks == s.tasks && s'.tokens == s.tokens && s'.frames == s.frames && s'.alive == s.alive && s'.all == s.all
      && RemovingTask(s'.base) == RemovingTask(s.base) == None
      && (a.StartClear? ==> InClear(s'.base))
      && (a.StartPoll? && s.all != {} ==> InPoll(s'.base))
  {
    hide W.Step, W.Enabled;
  }

  lemma StepTreeInv(r: Tree, b: TreeAction)
    requires TreeInv(r) && CanStep(r, b)
    ensures TreeInv(StepTree(r, b))
  {
    match b
    case Work(a) => WorkInv(r, a);
    case Drive(waker) => DriveInv(r, waker);
    case DropRunner => DropInv(r);
    case Call => CallInv(r);
    case Finish => FinishInv(r);
    case Return => ReturnInv(r);
  }

  lemma DriveInv(r: Tree, waker: W.Waker)
    requires TreeInv(r) && CanStep(r, Drive(waker))
    ensures TreeInv(StepTree(r, Drive(waker)))
  {
    var r' := StepTree(r, Drive(waker));
    if r.sys.all == {} {
      EmptyMeansFilled(r);
      hide AllInv, ScopesOk;
      assert TurnOnly(r, r');
      TurnKeepsScopes(r, r');
    } else {
      StepAll(r.sys, StartPoll(waker));
      StartKeepsAlive(r.sys, StartPoll(waker));
      hide AllInv, ScopesOk, Step;
      assert TurnOnly(r, r');
      TurnKeepsScopes(r, r');
    }
  }

  lemma DropInv(r: Tree)
    requires TreeInv(r) && CanStep(r, DropRunner)
    ensures TreeInv(StepTree(r, DropRunner))
  {
    var r' := StepTree(r, DropRunner);
    StepAll(r.sys, StartClear);
    StartKeepsAlive(r.sys, StartClear);
    hide AllInv, ScopesOk, Step;
    assert TurnOnly(r, r');
    TurnKeepsScopes(r, r');
  }

  lemma CallInv(r: Tree)
    requires TreeInv(r) && CanStep(r, Call)
    ensures TreeInv(StepTree(r, Call))
  {
    hide AllInv, ScopesOk;
    assert TurnOnly(r, StepTree(r, Call));
    TurnKeepsScopes(r, StepTree(r, Call));
  }

  lemma FinishInv(r: Tree)
    requires TreeInv(r) && CanStep(r, Finish)
    ensures TreeInv(StepTree(r, Finish))
  {
    hide AllInv, ScopesOk;
    var r' := StepTree(r, Finish);
    assert r.frames == r'.frames + [r.frames[|r.frames| - 1]];
    assert TurnOnly(r, r');
    TurnKeepsScopes(r, r');
  }

  lemma ReturnInv(r: Tree)
    requires TreeInv(r) && CanStep(r, Return)
    ensures TreeInv(StepTree(r, Return))
  {
    hide AllInv, ScopesOk;
    assert TurnOnly(r, StepTree(r, Return));
    TurnKeepsScopes(r, StepTree(r, Return));
  }

  lemma WorkInv(r: Tree, a: Action)
    requires TreeInv(r) && CanStep(r, Work(a))
    ensures TreeInv(StepTree(r, Work(a)))
  {
    WorkOnScopes(r, a);
    StepAll(r.sys, a);
    WorkOnDriver(r, a);
    WorkOnDrop(r, a);
    hide AllInv, ScopesOk, Step, Enabled;
  }

  lemma WorkOnDriver(r: Tree, a: Action)
    requires DriverOk(r) && CanStep(r, Work(a))
    ensures DriverOk(StepTree(r, Work(a)))
  {
    WorkPlace(r.sys, a);
    hide Step, Enabled, NoScopeIn;
  }

  lemma WorkOnDrop(r: Tree, a: Action)
    requires AllInv(r.sys) && DropOk(r) && DriverOk(r) && CanStep(r, Work(a))
    ensures DropOk(StepTree(r, Work(a)))
  {
    ClearedIsEmpty(r.sys, a);
    hide AllInv, Step, Enabled, NoScopeIn;
  }

  /** A clear ends with an empty list, and an empty list stays empty between polls. */
  lemma ClearedIsEmpty(s: Sys, a: Action)
    requires AllInv(s) && Enabled(s, a) && IsWork(a)
    ensures InClear(s.base) && Step(s, a).base.Out? ==> Step(s, a).all == {}
    ensures s.base.Out? && s.all == {} && !a.PushTask? ==> Step(s, a).all == {}
  {
    if !a.PushTask? && !a.Detach? {
      SchedularList.AllUnchanged(s, a);
      if ByCode(a) {
        CodeKeepsBase(s, a);
        hide Step;
      } else {
        ClearEnds(s, a);
        assert ListOk(s);
        hide AllInv, Step;
      }
    }
  }

  lemma ClearEnds(s: Sys, a: Action)
    requires Enabled(s, a) && IsWork(a) && !ByCode(a) && !a.Detach?
    ensures InClear(s.base) && Step(s, a).base.Out? ==> s.base.ClearPop?
  {
    if a.PopStep? {
      hide Q.Step, Q.Enabled, Q.Answered;
    } else {
      hide Q.Step, Q.Enabled, W.Step, W.Enabled, PopEffect;
    }
  }

  lemma {:induction false} RunTreeInv(run: seq<TreeAction>)
    requires ExecTree(run).Some?
    ensures TreeInv(ExecTree(run).value)
  {
    if run == [] {
      InitAll();
    } else {
      hide TreeInv, CanStep, StepTree;
      RunTreeInv(run[..|run| - 1]);
      StepTreeInv(ExecTree(run[..|run| - 1]).value, run[|run| - 1]);
    }
  }

  // ----- over runs

  lemma LastStep(run: seq<TreeAction>)
    requires run != [] && ExecTree(run).Some?
    ensures var front, b := run[..|run| - 1], run[|run| - 1];
      && ExecTree(front).Some? && CanStep(ExecTree(front).value, b)
      && ExecTree(run).value == StepTree(ExecTree(front).value, b)
      && TreeInv(ExecTree(front).value) && TreeInv(ExecTree(run).value)
  {
    RunTreeInv(run);
    RunTreeInv(run[..|run| - 1]);
    hide TreeInv, CanStep, StepTree;
  }

  lemma RootFindsNone(r: Tree, b: TreeAction)
    requires TreeInv(r) && CanStep(r, b) && !r.driver.Root? && StepTree(r, b).driver.Root?
    ensures StepTree(r, b).sys.all == {}
  {
    if b.Work? {
      SchedularEnd.ReadyStep(r.sys, b.a);
    }
    hide Step, Enabled, AllInv, ScopesOk, MayWork, NoScopeIn, DropOk;
  }

  /** The root is driven only once the scheduler is empty. */
  lemma RootOnlyWhenEmpty(run: seq<TreeAction>, b: TreeAction)
    requires ExecTree(run + [b]).Some?
    ensures ExecTree(run).Some?
    ensures !ExecTree(run).value.driver.Root? && ExecTree(run + [b]).value.driver.Root? ==>
              ExecTree(run + [b]).value.sys.all == {}
  {
    LastStep(run + [b]);
    assert (run + [b])[..|run + [b]| - 1] == run;
    hide ExecTree, CanStep, StepTree, TreeInv;
    if !ExecTree(run).value.driver.Root? && ExecTree(run + [b]).value.driver.Root? {
      RootFindsNone(ExecTree(run).value, b);
    }
  }

  /**
   The future of a scope is dropped before the future that holds its place goes: once the owner is gone,
   the drop counter of the scope's task is one. So no scope ever writes to a place that is no more.
   */
  lemma DroppedBeforeItsOwner(run: seq<TreeAction>, t: TaskId)
    requires ExecTree(run).Some? && t in ExecTree(run).value.sys.tasks
    requires var r := ExecTree(run).value; t in r.owners ==> !OwnerAlive(r, r.owners[t])
    ensures ExecTree(run).value.sys.tasks[t].dropped == 1
  {
    RunTreeInv(run);
    var r := ExecTree(run).value;
    assert ScopeOk(r, t) && TaskAt(r.sys, t);
  }

  /**
   Dropping the runner: the clear of the scheduler ends with every scope future dropped exactly once,
   while all the frames of the root stack are still there, and with an empty queue if no other thread is
   in the middle of an operation.
   */
  lemma ClearedBeforeTheFrames(run: seq<TreeAction>, b: TreeAction)
    requires ExecTree(run + [b]).Some?
    ensures ExecTree(run).Some?
    ensures var r, r' := ExecTree(run).value, ExecTree(run + [b]).value;
      r.driver.Clearing? && !r'.driver.Clearing? ==>
        && r'.sys.all == {} && r'.frames == r.frames
        && (forall t :: t in r'.sys.tasks ==> r'.sys.tasks[t].dropped == 1)
        && (r.sys.ops == map[] ==> !HasEntry(r'.sys))
  {
    LastStep(run + [b]);
    assert (run + [b])[..|run + [b]| - 1] == run;
    var r, r' := ExecTree(run).value, ExecTree(run + [b]).value;
    hide ExecTree;
    if r.driver.Clearing? && !r'.driver.Clearing? {
      assert b.Work? && r'.sys.base.Out? && r'.sys.all == {};
      AllDropped(r'.sys);
      if r.sys.ops == map[] {
        LastOfClear(r.sys, b.a);
      }
    }
    hide AllInv, Step, Enabled, HasEntry, MayWork, NoScopeIn, DropOk, ScopesOk, DriverOk;
  }

  lemma AllDropped(s: Sys)
    requires AllInv(s) && s.all == {} && s.base.Out?
    ensures forall t :: t in s.tasks ==> s.tasks[t].dropped == 1
  {
    forall t | t in s.tasks
      ensures s.tasks[t].dropped == 1
    {
      assert TaskAt(s, t);
    }
  }

  lemma LastOfClear(s: Sys, a: Action)
    requires AllInv(s) && Enabled(s, a) && IsWork(a) && InClear(s.base) && Step(s, a).base.Out? && s.ops == map[]
    ensures !HasEntry(Step(s, a))
  {
    if ByCode(a) {
      CodeKeepsBase(s, a);
      hide AllInv, Step, HasEntry;
    } else {
      if a.Detach? {
        DetachStays(s);
      }
      ClearEnds(s, a);
      assert a.PopStep?;
      SchedularEnd.ClearedQueue(s, a.qa);
      hide AllInv, Step, HasEntry;
    }
  }

  lemma DetachStays(s: Sys)
    requires Enabled(s, Action.Detach)
    ensures !Step(s, Action.Detach).base.Out?
  {
  }

  /** No frame goes before the scheduler is cleared, nor before any that is above it. */
  lemma {:induction false} FramesStay(run: seq<TreeAction>, i: nat)
    requires ExecTree(run).Some? && i < |run| && run[i] == DropRunner && forall j :: i < j < |run| ==> run[j] != Finish
    ensures ExecTree(run[..i]).Some? && ExecTree(run).value.frames == ExecTree(run[..i]).value.frames
    ensures Dropping(ExecTree(run).value.driver)
  {
    LastStep(run);
    var front, b := run[..|run| - 1], run[|run| - 1];
    hide ExecTree, TreeInv;
    if i == |front| {
      assert run[..i] == front;
    } else {
      assert run[..i] == front[..i];
      FramesStay(front, i);
    }
    DropFrames(ExecTree(front).value, b);
  }

  lemma DropFrames(r: Tree, b: TreeAction)
    requires CanStep(r, b)
    ensures Dropping(r.driver) && b != Finish ==> StepTree(r, b).frames == r.frames
    ensures Dropping(r.driver) ==> Dropping(StepTree(r, b).driver)
    ensures b == DropRunner ==> StepTree(r, b).frames == r.frames && Dropping(StepTree(r, b).driver)
  {
    hide Step, Enabled, NoScopeIn, MayWork;
  }

  /** In the end both are empty: no task of the scheduler, no frame of the root, and every future was dropped once. */
  lemma RunnerLeavesNothing(run: seq<TreeAction>)
    requires ExecTree(run).Some? && ExecTree(run).value.driver.Ended?
    ensures var r := ExecTree(run).value;
      r.sys.all == {} && r.frames == [] && forall t :: t in r.sys.tasks ==> r.sys.tasks[t].dropped == 1
  {
    RunTreeInv(run);
    AllDropped(ExecTree(run).value.sys);
  }

  // ----- how tasks end

  /** The step ends a running task: its own last poll, a cancel of its scope, or the clear. */
  ghost predicate Ends(r: Tree, b: TreeAction, t: TaskId) {
    && t in r.sys.tasks && r.sys.tasks[t].done.Running? && b.Work?
    && ((b.a == EndDrive(true) && r.sys.base == Driving(t)) || b.a == StartCancel(t) || b.a == ClearNext(t))
  }

  ghost predicate EndsAt(run: seq<TreeAction>, k: nat, t: TaskId) {
    k < |run| && ExecTree(run[..k]).Some? && Ends(ExecTree(run[..k]).value, run[k], t)
  }

  ghost predicate HasEnded(r: Tree, t: TaskId) {
    t in r.sys.tasks && !r.sys.tasks[t].done.Running?
  }

  lemma StepEnds(r: Tree, b: TreeAction, t: TaskId)
    requires TreeInv(r) && CanStep(r, b)
    ensures HasEnded(StepTree(r, b), t) <==> HasEnded(r, t) || Ends(r, b, t)
    ensures t in StepTree(r, b).filled <==> t in r.filled || (Ends(r, b, t) && b == Work(EndDrive(true)))
    ensures t in r.filled ==> HasEnded(r, t)
  {
    match b
    case Work(a) => WorkEnds(r, a, t);
    case Drive(waker) =>
      if r.sys.all != {} {
        StartKeepsAlive(r.sys, StartPoll(waker));
      }
      assert ScopeOk(r, t);
      hide AllInv, Step, ScopesOk;
    case DropRunner =>
      StartKeepsAlive(r.sys, StartClear);
      assert ScopeOk(r, t);
      hide AllInv, Step, ScopesOk;
    case Call => assert ScopeOk(r, t); hide AllInv;
    case Finish => assert ScopeOk(r, t); hide AllInv;
    case Return => assert ScopeOk(r, t); hide AllInv;
  }

  lemma WorkEnds(r: Tree, a: Action, t: TaskId)
    requires TreeInv(r) && CanStep(r, Work(a))
    ensures var r' := StepTree(r, Work(a));
      && (HasEnded(r', t) <==> HasEnded(r, t) || Ends(r, Work(a), t))
      && (t in r'.filled <==> t in r.filled || (Ends(r, Work(a), t) && a == EndDrive(true)))
      && (t in r.filled ==> HasEnded(r, t))
  {
    var s := r.sys;
    assert ScopeOk(r, t);
    StatesMove(s, a);
    WorkFacts(s, a, t);
    WorkFills(r, a, t);
    hide AllInv, Step, MayWork, ScopesOk, Enabled, PlaceOwned, DropOk, DriverOk, AfterWork, OwnerOf, StepTree;
    WorkEndsTask(s, a, t);
  }

  lemma WorkFills(r: Tree, a: Action, t: TaskId)
    requires CanStep(r, Work(a))
    ensures var r' := StepTree(r, Work(a));
      r'.sys == Step(r.sys, a) && (t in r'.filled <==> t in r.filled || (a == EndDrive(true) && r.sys.base.task == t))
  {
    hide Step, NoScopeIn, MayWork;
  }

  /** What the invariant of the scheduler says of a task that a step may end. */
  lemma WorkFacts(s: Sys, a: Action, t: TaskId)
    requires AllInv(s) && Enabled(s, a)
    ensures a.EndDrive? ==> s.base.Driving? && s.base.task in s.tasks && s.tasks[s.base.task].done.Running?
    ensures s.all == {} && t in s.tasks && s.base.ClearList? ==> !s.tasks[t].done.Running?
    ensures a.ClearNext? ==> s.base.ClearList?
  {
    assert TaskAt(s, t) && PlacesOk(s) && ListOk(s);
    hide AllInv;
  }

  /** The step ends the task if it runs before and not after. */
  lemma WorkEndsTask(s: Sys, a: Action, t: TaskId)
    requires Enabled(s, a) && StatesMoved(s, a)
    requires a.EndDrive? ==> s.base.Driving? && s.base.task in s.tasks && s.tasks[s.base.task].done.Running?
    requires s.all == {} && t in s.tasks && s.base.ClearList? ==> !s.tasks[t].done.Running?
    requires a.ClearNext? ==> s.base.ClearList?
    ensures var s' := Step(s, a);
      (t in s'.tasks && !s'.tasks[t].done.Running?) <==>
        (t in s.tasks && !s.tasks[t].done.Running?) ||
        (t in s.tasks && s.tasks[t].done.Running? &&
          ((a == EndDrive(true) && s.base == Driving(t)) || a == StartCancel(t) || a == ClearNext(t)))
  {
    hide Step, Enabled;
  }

  lemma EndsInFront(run: seq<TreeAction>, k: nat, t: TaskId)
    requires run != [] && ExecTree(run[..|run| - 1]).Some?
    ensures var front := run[..|run| - 1];
      && (EndsAt(front, k, t) ==> EndsAt(run, k, t) && k < |front| && run[k] == front[k])
      && (EndsAt(run, k, t) ==> EndsAt(front, k, t) || k == |front|)
      && (k == |front| ==> (EndsAt(run, k, t) <==> Ends(ExecTree(front).value, run[|front|], t)))
  {
    hide ExecTree, Ends;
    var front := run[..|run| - 1];
    if k < |front| {
      assert run[..k] == front[..k];
    }
  }

  /** The step of the run that ends the task, if there is one. */
  ghost function EndOf(run: seq<TreeAction>, t: TaskId): (k: Option<nat>)
    requires ExecTree(run).Some?
    ensures k.Some? ==> k.value < |run|
  {
    if run == [] then None
    else
      var front, b := run[..|run| - 1], run[|run| - 1];
      var before := EndOf(front, t);
      if before.Some? then before
      else if Ends(ExecTree(front).value, b, t) then Some(|front|)
      else None
  }

  lemma {:induction false} EndOfTells(run: seq<TreeAction>, t: TaskId)
    requires ExecTree(run).Some?
    ensures HasEnded(ExecTree(run).value, t) <==> EndOf(run, t).Some?
    ensures t in ExecTree(run).value.filled <==> EndOf(run, t).Some? && run[EndOf(run, t).value] == Work(EndDrive(true))
  {
    hide ExecTree, TreeInv, CanStep, StepTree, HasEnded, Ends;
    if run != [] {
      var front := run[..|run| - 1];
      LastStep(run);
      EndOfTells(front, t);
      StepEnds(ExecTree(front).value, run[|front|], t);
      EndsWhileRunning(ExecTree(front).value, run[|front|], t);
    } else {
      NoneEnded(t);
    }
  }

  lemma NoneEnded(t: TaskId)
    ensures ExecTree([]).Some? && !HasEnded(ExecTree([]).value, t) && t !in ExecTree([]).value.filled
  {
  }

  lemma {:induction false} EndOfIs(run: seq<TreeAction>, t: TaskId, k: nat)
    requires ExecTree(run).Some?
    ensures EndsAt(run, k, t) <==> EndOf(run, t) == Some(k)
  {
    hide ExecTree, TreeInv, CanStep, StepTree, HasEnded, Ends;
    if run != [] {
      var front := run[..|run| - 1];
      LastStep(run);
      EndOfIs(front, t, k);
      EndOfTells(front, t);
      assert EndsAt(front, k, t) ==> k < |front|;
      assert EndsAt(run, k, t) ==> k < |run|;
      hide EndsAt;
      EndsInFront(run, k, t);
      EndsWhileRunning(ExecTree(front).value, run[|front|], t);
    }
  }

  lemma EndsWhileRunning(r: Tree, b: TreeAction, t: TaskId)
    ensures Ends(r, b, t) ==> !HasEnded(r, t)
  {
  }

  /**
   Every task ends at most once, and has ended, its future dropped, exactly if one step of the run ended
   it; and its place is filled exactly if that one step was its own last poll.
   */
  lemma EndedExactly(run: seq<TreeAction>, t: TaskId)
    requires ExecTree(run).Some?
    ensures var r := ExecTree(run).value;
      && (t in r.sys.tasks ==> (r.sys.tasks[t].dropped == 1 <==> exists k: nat :: EndsAt(run, k, t)))
      && (t in r.filled <==> exists k: nat :: EndsAt(run, k, t) && run[k] == Work(EndDrive(true)))
    ensures (exists k: nat :: EndsAt(run, k, t)) ==> t in ExecTree(run).value.sys.tasks
    ensures forall k: nat, l: nat :: EndsAt(run, k, t) && EndsAt(run, l, t) ==> k == l
  {
    RunTreeInv(run);
    var r := ExecTree(run).value;
    assert TaskAt(r.sys, t);
    EndOfTells(run, t);
    hide ExecTree, AllInv, TreeInv, EndOf;
    forall k: nat
      ensures EndsAt(run, k, t) <==> EndOf(run, t) == Some(k)
    {
      EndOfIs(run, t, k);
    }
    hide EndsAt;
    if EndOf(run, t).Some? {
      assert EndsAt(run, EndOf(run, t).value, t);
    }
  }
}
