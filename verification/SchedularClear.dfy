/**
 `clear` comes to an end: it first takes every task off the list, and then, with no other thread in the
 middle of an operation, every step of its pops brings it nearer to an empty queue.
 */
module SchedularClear {
  import opened Wrappers
  import opened Schedular
  import opened SchedularPlaces
  import opened SchedularInv
  import opened SchedularTasks
  import opened SchedularSafety
  import opened SchedularPoll
  import opened SchedularRuns
  import opened SchedularTurns
  import opened SchedularHolders
  import SchedularWake
  import SchedularEnd
  import QueueRuns
  import Q = Queue
  import W = AtomicWaker

  /** A step of `clear` itself. */
  predicate ClearsOn(s: Sys, a: Action) {
    match s.base
    case ClearList => a.ClearNext?
    case ClearRemoving(_) => a.Detach?
    case ClearPop => a.PopStep?
    case ClearGot(_) => a.Dispatch?
    case _ => false
  }

  /** The list is emptied first, then the queue. */
  function Phase(s: Sys): nat {
    match s.base
    case ClearList => 2 * |s.all| + 2
    case ClearRemoving(_) => 2 * |s.all| + 1
    case ClearPop => 1
    case ClearGot(_) => 1
    case _ => 0
  }

  function PopStage(pop: Q.PopPc): nat {
    match pop
    case Outside => 7
    case Skipped => 6
    case CheckHead => 5
    case StubStore => 4
    case StubSwap => 3
    case StubLink(_, _) => 2
    case Reload => 1
  }

  /** How much of the queue is left to pop; a pop that a producer overlapped may have to be made again. */
  ghost function Left(q: Q.State): nat {
    |Q.Pending(if q.pos <= |q.order| then q else q.(pos := 0))| * 10 + PopStage(q.pop) +
    if q.pop != Q.Outside && q.overlap then 10 else 0
  }

  ghost function ClearLeft(s: Sys): nat {
    Left(s.q) + if s.base.ClearGot? then 1 else 0
  }

  lemma PendingLeft(q: Q.State, a: Q.Action)
    requires Q.Inv(q) && Q.Enabled(q, a) && IsPopAction(a)
    ensures Q.Inv(Q.Step(q, a))
    ensures |Q.Pending(q)| == |Q.Pending(Q.Step(q, a))| + if Taken(q, a).Some? then 1 else 0
  {
    QueueRuns.StepPending(q, a);
    TakenIsTail(q, a);
    QueueRuns.AnswerIsTail(q, a);
  }

  lemma StagesOfPop(q: Q.State, a: Q.Action)
    requires Q.Inv(q) && Q.Enabled(q, a) && IsPopAction(a) && !Q.MidPush(q)
    ensures var q' := Q.Step(q, a);
      && (q'.pop != Q.Outside && q'.overlap ==> q.pop != Q.Outside && q.overlap)
      && (Q.Answered(q, a).None? ==> PopStage(q'.pop) < PopStage(q.pop))
      && (Q.Answered(q, a).Some? ==> q'.pop == Q.Outside)
      && (Q.Answered(q, a) == Some(Q.Inconsistent) ==> q.overlap && q.pop == Q.CheckHead)
  {
    if Q.Answered(q, a) == Some(Q.Inconsistent) {
      QueueRuns.AnswersExplained(q, a);
    }
    MidPushOfPop(q, a);
    hide Q.Inv, Q.MidPush;
  }

  lemma MidPushOfPop(q: Q.State, a: Q.Action)
    requires Q.Enabled(q, a) && IsPopAction(a) && !Q.MidPush(q)
    ensures !Q.MidPush(Q.Effect(q, a)) && !Q.MidPush(Q.Step(q, a))
  {
    QueuePlaces(q, a);
    assert Q.Step(q, a).producers == Q.Effect(q, a).producers;
    hide Q.Effect;
  }

  /** A step of a pop that no producer overlaps leaves less to pop, unless it answers that there is nothing. */
  lemma QuietPopAdvances(q: Q.State, a: Q.Action)
    requires Q.Inv(q) && Q.Enabled(q, a) && IsPopAction(a) && !Q.MidPush(q)
    ensures Q.Answered(q, a) != Some(Q.Empty) ==>
      Left(Q.Step(q, a)) + (if Taken(q, a).Some? then 1 else 0) < Left(q)
  {
    PendingLeft(q, a);
    StagesOfPop(q, a);
    assert q.pos <= |q.order| && Q.Step(q, a).pos <= |Q.Step(q, a).order|;
    hide Q.Step, Q.Inv, Q.Pending, Q.MidPush;
  }

  /**
   Every step of `clear` brings it nearer to its end: while it empties the list whatever happens beside
   it, and while it empties the queue if no other thread is in the middle of an operation.
   */
  lemma ClearAdvances(s: Sys, a: Action)
    requires Inv(s) && Enabled(s, a) && ClearsOn(s, a)
    requires s.base.ClearPop? ==> s.ops == map[]
    ensures var s' := Step(s, a);
      Phase(s') < Phase(s) || (Phase(s') == Phase(s) && ClearLeft(s') < ClearLeft(s))
  {
    if a.PopStep? {
      ClearPopAdvances(s, a.qa);
    } else if a.Dispatch? {
      hide Inv;
    } else {
      ListAdvances(s, a);
    }
  }

  lemma ListAdvances(s: Sys, a: Action)
    requires Inv(s) && Enabled(s, a) && (a.ClearNext? || a.Detach?) && ClearsOn(s, a)
    ensures Phase(Step(s, a)) < Phase(s)
  {
    if a.Detach? {
      assert TaskAt(s, s.base.task);
      hide Inv;
      assert |s.all - {s.base.task}| == |s.all| - 1;
    }
    hide Inv;
  }

  lemma ClearPopAdvances(s: Sys, a: Q.Action)
    requires Inv(s) && Enabled(s, PopStep(a)) && s.base.ClearPop? && s.ops == map[]
    ensures var s' := PopEffect(s, a);
      Phase(s') < Phase(s) || (Phase(s') == Phase(s) && ClearLeft(s') < ClearLeft(s))
  {
    NoneInside(s);
    QuietPopAdvances(s.q, a);
    hide Inv;
    TakenIsTail(s.q, a);
    ClearPopBase(s, a);
    hide Q.Inv, Q.Step, Q.Enabled, Left, Q.MidPush, PopEffect, Taken, Q.Answered;
  }

  lemma ClearPopBase(s: Sys, a: Q.Action)
    requires Enabled(s, PopStep(a)) && s.base.ClearPop? && (Taken(s.q, a).Some? ==> Taken(s.q, a).value.Item?)
    ensures var s' := PopEffect(s, a);
      && s'.q == Q.Step(s.q, a)
      && (if Q.Answered(s.q, a) == Some(Q.Empty) then s'.base.Out?
          else if Taken(s.q, a).Some? then s'.base.ClearGot? else s'.base.ClearPop?)
  {
    hide Q.Step, Q.Enabled, Q.Answered;
  }

  lemma NoneInside(s: Sys)
    requires Inv(s) && s.ops == map[]
    ensures !Q.MidPush(s.q) && Q.Inv(s.q)
  {
    assert Sync(s);
    forall u ensures u !in s.q.producers { assert SyncAt(s, u); }
  }

  // ----- what a future does while it is dropped

  /** A step of the code of a future that is being dropped. */
  predicate ByDrop(a: Action) {
    a.CloneWaker? || a.DropWaker? || a.StartCancel? || a.EndDrop? || a == OpStep(CONSUMER)
  }

  /** No other thread is in the middle of an operation. */
  ghost predicate Alone(s: Sys) {
    s.ops - {CONSUMER} == map[]
  }

  lemma AloneAndTurn(s: Sys)
    requires Alone(s) && PollerTurn(s)
    ensures s.ops == map[]
  {
    assert s.ops - {CONSUMER} == s.ops;
  }

  lemma DropKeeps(s: Sys, a: Action)
    requires Enabled(s, a) && ByDrop(a)
    ensures var s' := Step(s, a); s'.base == s.base && s'.all == s.all && (Alone(s) ==> Alone(s'))
  {
    if a.OpStep? {
      OpHistory(s, a.u);
      OpElsewhere(s, a.u);
      hide OpEffect, OpEnabled, Elsewhere;
    } else if a.CloneWaker? || a.DropWaker? {
      HandleShape(s, a);
      HandlePoll(s, a);
      DropBase(s, a);
      hide Step, Enabled;
    } else {
      StartShape(s, a);
      HandlePoll(s, a);
      hide Step, Enabled;
    }
  }

  lemma DropBase(s: Sys, a: Action)
    requires Enabled(s, a) && (a.CloneWaker? || a.DropWaker?)
    ensures Step(s, a).base == s.base
  {
    hide Q.Step, Q.Enabled, W.Step, W.Enabled;
  }

  // ----- the next step

  /** In the list loop of `clear`, alone. */
  ghost predicate Listing(s: Sys) {
    AllInv(s) && Alone(s) && (s.base.ClearList? || s.base.ClearRemoving?)
  }

  /** In its pop loop. */
  ghost predicate Draining(s: Sys) {
    AllInv(s) && s.ops == map[] && (s.base.ClearPop? || s.base.ClearGot?)
  }

  /** Every task has left the list and every entry the queue; each future was dropped once. */
  ghost predicate Cleared(s: Sys) {
    && AllInv(s) && SchedularWake.Idle(s) && s.all == {} && !SchedularWake.HasEntry(s)
    && forall t :: t in s.tasks ==> s.tasks[t].done.Done? && s.tasks[t].dropped == 1
  }

  lemma ClearBegins(s: Sys)
    requires AllInv(s) && PollerTurn(s) && s.base.Out? && s.alive && s.ops == map[]
    ensures Enabled(s, StartClear) && Listing(Step(s, StartClear)) && Step(s, StartClear).base.ClearList?
  {
    StepAll(s, StartClear);
    hide AllInv;
  }

  lemma ListIsNext(s: Sys, t: TaskId)
    requires Listing(s) && s.base.ClearList? && (s.all != {} ==> t in s.all)
    ensures var a := ClearNext(t);
      && Enabled(s, a) && Phase(Step(s, a)) < Phase(s)
      && (if s.all == {} then Draining(Step(s, a)) else Listing(Step(s, a)) && Step(s, a).base.ClearRemoving?)
  {
    assert s.all <= s.tasks.Keys && BaseSync(s);
    AloneAndTurn(s);
    ListAdvances(s, ClearNext(t));
    StepAll(s, ClearNext(t));
    hide AllInv, Inv;
  }

  lemma DetachIsNextToo(s: Sys)
    requires Listing(s) && s.base.ClearRemoving? && PollerTurn(s)
    ensures Enabled(s, Detach) && Phase(Step(s, Detach)) < Phase(s)
    ensures Listing(Step(s, Detach)) && Step(s, Detach).base.ClearList?
  {
    assert PlacesOk(s);
    ListAdvances(s, Detach);
    StepAll(s, Detach);
    hide AllInv, Inv;
  }

  lemma ClearNextKeeps(s: Sys, t: TaskId)
    requires Enabled(s, ClearNext(t)) && t in s.all
    ensures Step(s, ClearNext(t)).all == s.all && Step(s, ClearNext(t)).base == ClearRemoving(t)
  {
  }

  lemma DetachShortens(s: Sys)
    requires Listing(s) && s.base.ClearRemoving? && Enabled(s, Detach)
    ensures |Step(s, Detach).all| < |s.all|
  {
    assert TaskAt(s, s.base.task);
    hide AllInv, Inv;
    assert |s.all - {s.base.task}| == |s.all| - 1;
  }

  /** The next step of the pop loop. */
  function NextDrain(s: Sys): Action {
    if s.base.ClearGot? then Dispatch else PopStep(NextPop(s.q.pop))
  }

  lemma DrainIsNext(s: Sys)
    requires Draining(s)
    ensures var a := NextDrain(s);
      && Enabled(s, a)
      && (Cleared(Step(s, a)) || (Draining(Step(s, a)) && ClearLeft(Step(s, a)) < ClearLeft(s)))
  {
    var a := NextDrain(s);
    assert Inv(s);
    if s.base.ClearGot? {
      HolderKnown(s, s.base.task, Poller);
    }
    StepAll(s, a);
    ClearAdvances(s, a);
    DrainShape(s, a);
    hide AllInv, Inv, Step, ClearLeft;
    if Step(s, a).base.Out? {
      DrainEnds(s, a);
    }
  }

  lemma DrainShape(s: Sys, a: Action)
    requires Enabled(s, a) && (s.base.ClearPop? || s.base.ClearGot?) && a == NextDrain(s)
    ensures var s' := Step(s, a);
      s'.ops == s.ops && (s'.base.Out? || (Phase(s') == Phase(s) && (s'.base.ClearPop? || s'.base.ClearGot?)))
  {
    if a.PopStep? {
      PopShape(s, a.qa);
      DrainBase(s, a.qa);
      hide PopEffect;
    } else {
      hide Q.Step, Q.Enabled;
    }
  }

  lemma DrainBase(s: Sys, a: Q.Action)
    requires Enabled(s, PopStep(a)) && s.base.ClearPop?
    ensures var b := PopEffect(s, a).base; b.Out? || b.ClearPop? || b.ClearGot?
  {
    hide Q.Step, Q.Enabled, Q.Answered;
  }

  lemma DrainEnds(s: Sys, a: Action)
    requires Draining(s) && Enabled(s, a) && a == NextDrain(s) && Step(s, a).base.Out? && AllInv(Step(s, a))
    ensures Cleared(Step(s, a))
  {
    var s' := Step(s, a);
    assert Inv(s) && Inv(s');
    hide AllInv, Inv;
    assert a.PopStep? && s' == PopEffect(s, a.qa);
    SchedularEnd.ClearedQueue(s, a.qa);
    hide Step, PopEffect, SchedularWake.HasEntry, Enabled;
    forall t | t in s'.tasks
      ensures s'.tasks[t].done.Done? && s'.tasks[t].dropped == 1
    {
      SchedularEnd.AfterClear(s', t, AllList);
    }
  }
}
