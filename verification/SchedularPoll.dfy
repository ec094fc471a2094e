/**
 One poll is bounded: starting with L tasks in the list, of which n more are pushed while it runs,
 it drives a future at most 2(L + n) times, and every step of its own brings it closer to its end.
 */
module SchedularPoll {
  import opened Wrappers
  import opened Schedular
  import opened SchedularPlaces
  import opened SchedularInv
  import opened SchedularHolders
  import opened SchedularTasks
  import opened SchedularSafety
  import opened SchedularWake
  import Q = Queue
  import W = AtomicWaker

  /** The tasks this poll began with and those pushed since. */
  function Budget(s: Sys): nat {
    s.hist.start + s.hist.created
  }

  /** The last drive is not settled yet: its task may still leave the list, or `poll` returns. */
  predicate Unsettled(b: Base) {
    b.Driving? || (b.Removing? && b.driven) || (b.Dropping? && b.returning)
  }

  /** The drives of the current poll, and the entries it popped. */
  ghost predicate PollInv(s: Sys) {
    InPoll(s.base) ==>
      && |s.all| + s.hist.cancels <= Budget(s) + (if s.base.Removing? && !s.base.driven then 1 else 0)
      && s.iteration <= 2 * Budget(s)
      && s.iteration + |s.all| <= 2 * Budget(s) + (if Unsettled(s.base) then 1 else 0)
      && s.hist.pops == s.iteration + s.hist.cancels + s.hist.dones + (if s.base.Got? then 1 else 0)
      && s.hist.dones <= |s.hist.drained|
  }

  /** A done task whose entry was popped never gets another. */
  ghost predicate DrainedAt(s: Sys, t: TaskId) {
    t in s.hist.drained ==> t in s.tasks && s.tasks[t].done.Done? && s.tasks[t].queued && !HasClaim(s, t)
  }

  ghost predicate DrainedInv(s: Sys) {
    forall t :: DrainedAt(s, t)
  }

  lemma DrainedStep(s: Sys, a: Action)
    requires DrainedInv(s) && Inv(s) && Enabled(s, a)
    ensures DrainedInv(Step(s, a))
  {
    var s' := Step(s, a);
    StepInv(s, a);
    StepForward(s, a);
    DrainedGrows(s, a);
    hide Inv, Step, Enabled, HasClaim;
    forall t ensures DrainedAt(s', t) {
      assert DrainedAt(s, t);
      if t in s'.hist.drained && t !in s.hist.drained {
        FreshlyDrained(s, a);
      }
    }
  }

  /** Only the Done branch of poll drains. */
  lemma DrainedGrows(s: Sys, a: Action)
    requires Enabled(s, a)
    ensures Step(s, a).hist.drained == s.hist.drained ||
            (a.Dispatch? && s.base.Got? && s.tasks[s.base.task].done.Done?
             && Step(s, a).hist.drained == s.hist.drained + {s.base.task})
  {
    if a.OpStep? {
      OpHistory(s, a.u);
      hide OpEffect, OpEnabled;
    } else if a.PopStep? {
      PopDrains(s, a.qa);
      hide PopEffect;
    } else {
      OtherDrains(s, a);
      hide Step;
    }
  }

  lemma PopDrains(s: Sys, a: Q.Action)
    requires Enabled(s, PopStep(a))
    ensures PopEffect(s, a).hist.drained == s.hist.drained
  {
    var s' := s.(q := Q.Step(s.q, a));
    if Q.Answered(s.q, a).Some? {
      AnswerDrains(s', Q.Answered(s.q, a).value);
    }
    hide Q.Step, Q.Enabled, Q.Answered, PollAnswered, ClearAnswered;
  }

  lemma AnswerDrains(s: Sys, answer: Q.Answer)
    ensures PollAnswered(s, answer).hist.drained == s.hist.drained
    ensures ClearAnswered(s, answer).hist.drained == s.hist.drained
  {
  }

  lemma OtherDrains(s: Sys, a: Action)
    requires Enabled(s, a) && !a.OpStep? && !a.PopStep?
    ensures Step(s, a).hist.drained == s.hist.drained ||
            (a.Dispatch? && s.base.Got? && s.tasks[s.base.task].done.Done?
             && Step(s, a).hist.drained == s.hist.drained + {s.base.task})
  {
    if a.Dispatch? {
      DispatchDrains(s);
    } else {
      hide Q.Step, Q.Enabled, W.Step, W.Enabled, OpEffect, PopEffect;
    }
  }

  lemma DispatchDrains(s: Sys)
    requires Enabled(s, Dispatch)
    ensures var s' := Step(s, Dispatch);
      s'.hist.drained == s.hist.drained ||
      (s.base.Got? && s.tasks[s.base.task].done.Done? && s'.hist.drained == s.hist.drained + {s.base.task})
  {
  }

  lemma OpHistory(s: Sys, u: Tid)
    requires OpEnabled(s, u)
    ensures OpEffect(s, u).hist == s.hist && OpEffect(s, u).all == s.all
    ensures OpEffect(s, u).iteration == s.iteration && OpEffect(s, u).base == s.base
  {
    assert u in s.ops;
    hide OpEnabled, OpEffect;
    var op := s.ops[u];
    if op.Store? || op.Push? {
      QueueOpHistory(s, u);
    } else if op.Signal? || op.Waking? {
      WakeOpHistory(s, u);
    } else {
      PlainOpHistory(s, u);
    }
  }

  lemma QueueOpHistory(s: Sys, u: Tid)
    requires OpEnabled(s, u) && (s.ops[u].Store? || s.ops[u].Push?)
    ensures var s' := OpEffect(s, u);
      s'.hist == s.hist && s'.all == s.all && s'.iteration == s.iteration && s'.base == s.base
  {
    hide Q.Step, Q.Enabled, PushAction;
  }

  lemma WakeOpHistory(s: Sys, u: Tid)
    requires OpEnabled(s, u) && (s.ops[u].Signal? || s.ops[u].Waking?)
    ensures var s' := OpEffect(s, u);
      s'.hist == s.hist && s'.all == s.all && s'.iteration == s.iteration && s'.base == s.base
  {
    hide W.Step, W.Enabled, WakeAction;
  }

  lemma PlainOpHistory(s: Sys, u: Tid)
    requires OpEnabled(s, u) && (s.ops[u].TryQueue? || s.ops[u].Upgrade? || s.ops[u].Release?)
    ensures var s' := OpEffect(s, u);
      s'.hist == s.hist && s'.all == s.all && s'.iteration == s.iteration && s'.base == s.base
  {
    hide QueueHeld;
  }

  lemma FreshlyDrained(s: Sys, a: Action)
    requires Inv(s) && Enabled(s, a) && a.Dispatch? && s.base.Got? && s.tasks[s.base.task].done.Done?
    ensures var t := s.base.task;
            t in Step(s, a).tasks && Step(s, a).tasks[t].done.Done? && Step(s, a).tasks[t].queued && !HasClaim(Step(s, a), t)
  {
    var t, s' := s.base.task, Step(s, a);
    assert Claims(s, t, Poller);
    OnlyClaim(s, t, Poller);
    assert s.tasks[t].queued;
    DispatchMoves(s, t) by { assert forall x :: x in s.leaked ==> s.tasks[x].done.Done?; }
    hide Claims, Inv;
    assert forall h: Holder :: !Claims(s', t, h);
  }

  // ----- the bound

  /** What the bound depends on. */
  ghost predicate SamePoll(s: Sys, s': Sys) {
    && s'.all == s.all && s'.iteration == s.iteration
    && s'.hist == s.hist.(pending := s'.hist.pending, outside := s'.hist.outside)
    && (InPoll(s'.base) ==> s'.base == s.base)
  }

  lemma SamePollInv(s: Sys, s': Sys)
    requires PollInv(s) && SamePoll(s, s')
    ensures PollInv(s')
  {
  }

  lemma HandlePoll(s: Sys, a: Action)
    requires Enabled(s, a) && (a.CloneWaker? || a.DropWaker? || a.StartWake? || a.StartCancel? || a.EndDrop?)
    ensures SamePoll(s, Step(s, a))
  {
    hide Q.Step, Q.Enabled, W.Step, W.Enabled;
  }

  lemma PushTaskPoll(s: Sys, t: TaskId)
    requires PollInv(s) && t !in s.all
    ensures PollInv(PushTaskEffect(s, t))
  {
    assert |s.all + {t}| == |s.all| + 1;
  }

  lemma RegisterPoll(s: Sys, a: Action)
    requires PollInv(s) && Enabled(s, a) && (a.StartPoll? || a.RegisterStep?)
    ensures PollInv(Step(s, a))
  {
    hide W.Step, W.Enabled;
  }

  lemma AnswerPoll(s: Sys, answer: Q.Answer)
    requires PollInv(s) && s.base.Popping? && (answer.Value? ==> answer.node.Item?)
    ensures PollInv(PollAnswered(s, answer))
    ensures InPoll(PollAnswered(s, answer).base) ==> Progress(PollAnswered(s, answer)) > 12 * s.hist.pops + 11
  {
  }

  lemma QueueIrrelevant(s: Sys, q: Q.State)
    requires PollInv(s)
    ensures PollInv(s.(q := q))
  {
  }

  lemma PopPoll(s: Sys, a: Q.Action)
    requires PollInv(s) && Components(s) && Enabled(s, PopStep(a))
    ensures PollInv(PopEffect(s, a))
  {
    ChainStep(s.q, a);
    QueueIrrelevant(s, Q.Step(s.q, a));
    if s.base.ClearPop? {
      ClearNotPoll(s, a);
    } else if Q.Answered(s.q, a).Some? {
      AnswerPoll(s.(q := Q.Step(s.q, a)), Q.Answered(s.q, a).value);
    }
    hide Q.Step, Q.Enabled, Components, PollInv, PollAnswered, ClearAnswered, InChain;
  }

  lemma ClearNotPoll(s: Sys, a: Q.Action)
    requires Enabled(s, PopStep(a)) && s.base.ClearPop?
    ensures PollInv(PopEffect(s, a))
  {
    hide Q.Step, Q.Enabled;
  }

  lemma DispatchPoll(s: Sys, t: TaskId)
    requires PollInv(s) && s.base == Got(t) && t in s.tasks && (!s.tasks[t].done.Done? ==> t in s.all)
    requires s.tasks[t].done.Done? ==> t !in s.hist.drained
    ensures PollInv(DispatchEffect(s, t))
  {
    match s.tasks[t].done
    case Running => assert |s.all - {t}| == |s.all| - 1;
    case Done => assert |s.hist.drained + {t}| == |s.hist.drained| + 1;
    case Cancelled => assert |s.all - {t}| == |s.all| - 1;
  }

  lemma EndDrivePoll(s: Sys, t: TaskId, ready: bool)
    requires PollInv(s) && s.base == Driving(t) && t in s.tasks && s.len == |s.all|
    ensures PollInv(EndDriveEffect(s, t, ready))
  {
  }

  lemma DetachPoll(s: Sys, t: TaskId)
    requires PollInv(s) && RemovingTask(s.base) == Some(t) && t in s.tasks && t in s.all
    ensures PollInv(DetachEffect(s, t))
  {
    assert |s.all - {t}| == |s.all| - 1;
  }

  lemma EndPoll(s: Sys, a: Action)
    requires PollInv(s) && Enabled(s, a)
    requires a.EndTurn? || a.StartClear? || a.DropSchedular? || (a.Dispatch? && s.base.ClearGot?) || a.ClearNext?
    ensures PollInv(Step(s, a))
  {
    hide Q.Step, Q.Enabled, W.Step, W.Enabled;
  }

  lemma GotIsNotDrained(s: Sys)
    requires DrainedInv(s) && s.base.Got?
    ensures s.base.task !in s.hist.drained
  {
    assert DrainedAt(s, s.base.task) && Claims(s, s.base.task, Poller);
  }

  /** Every step keeps the bounds of the current poll. */
  lemma PollStepInv(s: Sys, a: Action)
    requires PollInv(s) && DrainedInv(s) && Inv(s) && Enabled(s, a)
    ensures PollInv(Step(s, a))
  {
    if a.Dispatch? || a.Detach? {
      assert TaskAt(s, s.base.task);
    }
    assert s.all <= s.tasks.Keys && (a.EndDrive? ==> s.len == |s.all|);
    if s.base.Got? { GotIsNotDrained(s); }
    hide PollInv, Inv, OpEffect, PopEffect, SamePoll, DispatchEffect, DetachEffect, EndDriveEffect, DrainedInv;
    match a
    case OpStep(u) =>
      OpHistory(s, u);
      assert SamePoll(s, OpEffect(s, u)) by { SameHistory(s, OpEffect(s, u)); }
      SamePollInv(s, Step(s, a));
    case PushTask(t) => PushTaskPoll(s, t);
    case StartPoll(_) => RegisterPoll(s, a);
    case RegisterStep(_) => RegisterPoll(s, a);
    case PopStep(qa) => PopPoll(s, qa);
    case Dispatch => if s.base.Got? { DispatchPoll(s, s.base.task); } else { EndPoll(s, a); }
    case EndDrive(ready) => EndDrivePoll(s, s.base.task, ready);
    case Detach => DetachPoll(s, s.base.task);
    case EndTurn => EndPoll(s, a);
    case StartClear => EndPoll(s, a);
    case DropSchedular => EndPoll(s, a);
    case ClearNext(_) => EndPoll(s, a);
    case _ => HandlePoll(s, a); SamePollInv(s, Step(s, a));
  }

  lemma SameHistory(s: Sys, s': Sys)
    requires s'.hist == s.hist && s'.all == s.all && s'.iteration == s.iteration && s'.base == s.base
    ensures SamePoll(s, s')
  {
  }

  // ----- termination

  /** A step of `poll` itself. */
  predicate PollsOn(s: Sys, a: Action) {
    InPoll(s.base) && (a.RegisterStep? || a.PopStep? || a.Dispatch? || a.EndDrive? || a.Detach? || a.EndTurn?)
  }

  /** How far the consumer is between one pop and the next. */
  function Stage(s: Sys): nat {
    match s.base
    case Registering =>
      (match s.w.register
       case Committing(_) => 1
       case Reclaiming => 2
       case Handing(_) => 3
       case CallingSelf(_) => 4
       case _ => 0)
    case Got(_) => 1
    case Driving(_) => 2
    case Removing(_, _) => 3
    case Dropping(_, _) => 4
    case _ =>
      match s.q.pop
      case Outside => 5
      case Skipped => 6
      case CheckHead => 7
      case StubStore => 8
      case StubSwap => 9
      case StubLink(_, _) => 10
      case Reload => 11
  }

  function Progress(s: Sys): nat {
    12 * s.hist.pops + Stage(s)
  }

  lemma UnansweredAdvances(s: Sys, a: Q.Action)
    requires Enabled(s, PopStep(a)) && s.base.Popping? && Q.Answered(s.q, a).None?
    ensures Progress(PopEffect(s, a)) > Progress(s)
  {
    PopPlaces(s.q, a);
    hide Q.Step, Q.Enabled, Q.Answered;
  }

  lemma PopAdvances(s: Sys, a: Q.Action)
    requires Components(s) && PollInv(s) && Enabled(s, PopStep(a)) && s.base.Popping? && InPoll(PopEffect(s, a).base)
    ensures Progress(PopEffect(s, a)) > Progress(s)
  {
    hide Components, PollInv, PopEffect, Q.Answered, Progress;
    if Q.Answered(s.q, a).None? {
      UnansweredAdvances(s, a);
    } else {
      AnsweredAdvances(s, a);
    }
  }

  lemma AnsweredAdvances(s: Sys, a: Q.Action)
    requires Components(s) && PollInv(s) && Enabled(s, PopStep(a)) && s.base.Popping? && InPoll(PopEffect(s, a).base)
    requires Q.Answered(s.q, a).Some?
    ensures Progress(PopEffect(s, a)) > Progress(s)
  {
    var answer := Q.Answered(s.q, a).value;
    assert answer.Value? ==> answer.node.Item? by { ChainStep(s.q, a); }
    hide Q.Answered, Components, Q.Step, Q.Enabled, PollInv, PollAnswered, ClearAnswered;
    QueueIrrelevant(s, Q.Step(s.q, a));
    AnswerPoll(s.(q := Q.Step(s.q, a)), answer);
  }

  /** A step of `pop` that does not answer moves on inside it. */
  lemma PopPlaces(q: Q.State, a: Q.Action)
    requires Q.Enabled(q, a) && IsPopAction(a) && Q.Answered(q, a).None?
    ensures var pop := Q.Step(q, a).pop;
            match q.pop
            case Outside => pop == Q.Skipped || pop == Q.CheckHead
            case Skipped => pop == Q.CheckHead
            case CheckHead => pop == Q.StubStore
            case StubStore => pop == Q.StubSwap
            case StubSwap => pop.StubLink?
            case StubLink(_, _) => pop == Q.Reload
            case Reload => false
  {
  }

  lemma RegisterAdvances(s: Sys, wa: W.Action)
    requires Inv(s) && Enabled(s, RegisterStep(wa))
    ensures Progress(RegisterEffect(s, wa)) > Progress(s)
  {
    W.StepInv(s.w, wa);
    assert Sync(s) && Components(s);
    hide TaskOk, Ledger;
  }

  lemma TurnAdvances(s: Sys, a: Action)
    requires Enabled(s, a) && InPoll(s.base) && (a.Dispatch? || a.EndDrive? || a.Detach? || a.EndTurn?)
    requires InPoll(Step(s, a).base) && s.q.pop == Q.Outside
    ensures Progress(Step(s, a)) > Progress(s)
  {
    hide Q.Step, W.Step;
  }

  /**
   Every step of `poll` itself that does not return moves it forward, and there is an end to that: the
   entries it can pop are bounded by the tasks it began with, those pushed since, and all tasks.
   */
  lemma PollTerminates(s: Sys, a: Action)
    requires Inv(s) && PollInv(s) && DrainedInv(s) && Enabled(s, a) && PollsOn(s, a)
    requires InPoll(Step(s, a).base)
    ensures Progress(Step(s, a)) > Progress(s)
    ensures Progress(s) <= 12 * (3 * Budget(s) + |s.tasks| + 3)
  {
    ProgressIsBounded(s);
    assert s.q.pop != Q.Outside ==> s.base.Popping? || s.base.ClearPop?;
    hide Inv, DrainedInv, OpEffect, PopEffect, RegisterEffect, Progress;
    match a
    case PopStep(qa) => PopAdvances(s, qa);
    case RegisterStep(wa) => RegisterAdvances(s, wa);
    case Dispatch => TurnAdvances(s, a);
    case EndDrive(_) => TurnAdvances(s, a);
    case Detach => TurnAdvances(s, a);
    case EndTurn => TurnAdvances(s, a);
  }

  lemma ProgressIsBounded(s: Sys)
    requires PollInv(s) && DrainedInv(s) && InPoll(s.base)
    ensures Progress(s) <= 12 * (3 * Budget(s) + |s.tasks| + 3)
  {
    assert s.hist.drained <= s.tasks.Keys by {
      forall t | t in s.hist.drained ensures t in s.tasks { assert DrainedAt(s, t); }
    }
    SubsetSize(s.hist.drained, s.tasks.Keys);
    assert |s.tasks| == |s.tasks.Keys|;
  }

  lemma {:induction false} SubsetSize(a: set<TaskId>, b: set<TaskId>)
    requires a <= b
    ensures |a| <= |b|
  {
    assert |b - a| + |a| == |b| by {
      assert b == (b - a) + a;
    }
  }
}
