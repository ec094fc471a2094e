/**
 The poll loop as the code it is.  Between any two of its steps other threads may take any number of
 theirs, and a future that runs may clone and drop wakers, push tasks and cancel; one that is dropped may
 do the same but for pushing tasks.
 */
module SchedularObject {
  import opened Wrappers
  import opened Schedular
  import opened SchedularInv
  import opened SchedularSafety
  import opened SchedularWake
  import opened SchedularPoll
  import opened SchedularRuns
  import W = AtomicWaker
  import opened SchedularTurns
  import opened SchedularClear

  class TreeSchedular {
    var sys: Sys                // the scheduler, its tasks, and where every thread is
    ghost var run: seq<Action>  // history: all steps so far

    ghost predicate Traced()
      reads this
    {
      Exec(run) == Some(sys)
    }

    constructor ()
      ensures AllInv(sys) && sys == Schedular.Init() && Traced() && run == []
    {
      sys, run := Schedular.Init(), [];
      new;
      InitAll();
    }

    method Apply(a: Action)
      requires AllInv(sys) && Enabled(sys, a)
      requires Traced()
      modifies this
      ensures Traced() && old(run) <= run
      ensures AllInv(sys) && sys == old(Step(sys, a)) && run == old(run) + [a]
    {
      hide AllInv, Enabled, Step;
      StepAll(sys, a);
      assert (run + [a])[..|run + [a]| - 1] == run;
      sys, run := Step(sys, a), run + [a];
    }

    /** Any number of steps of the other threads. */
    method Others(limit: nat)
      requires Polling(sys, limit)
      requires Traced()
      modifies this
      ensures Traced() && old(run) <= run
      ensures Polling(sys, limit) && Away(old(sys), sys) && Reached(old(sys), sys, limit)
    {
      hide Exec, AllInv, Enabled, Step, ByOther, Nested, Progress;
      var steps: nat := *;
      while steps > 0
        invariant Traced() && old(run) <= run
        invariant Polling(sys, limit) && Away(old(sys), sys)
      {
        var a: Action := *;
        if Enabled(sys, a) && ByOther(sys, a) {
          OtherIsAway(sys, a);
          Apply(a);
        }
        steps := steps - 1;
      }
      ElsewhereReaches(old(sys), sys, limit);
    }

    /** Any number of steps of the other threads and of the futures' own code. */
    method Users(limit: nat)
      requires Polling(sys, limit)
      requires Traced()
      modifies this
      ensures Traced() && old(run) <= run
      ensures Polling(sys, limit) && Elsewhere(old(sys), sys)
    {
      hide Exec, AllInv, Enabled, Step, ByUser, Nested;
      var steps: nat := *;
      while steps > 0
        invariant Traced() && old(run) <= run
        invariant Polling(sys, limit) && Elsewhere(old(sys), sys)
      {
        var a: Action := *;
        if Enabled(sys, a) && ByUser(sys, a) && (a.PushTask? ==> |sys.tasks| < limit) {
          UserIsElsewhere(sys, a);
          Apply(a);
        }
        steps := steps - 1;
      }
    }

    /** A future runs, or is dropped, to the end of its code: of the cancels and pushes it began. */
    method RunUserCode(limit: nat)
      requires Polling(sys, limit)
      requires Traced()
      modifies this
      ensures Traced() && old(run) <= run
      ensures Polling(sys, limit) && Elsewhere(old(sys), sys) && PollerTurn(sys)
      ensures Reached(old(sys), sys, limit)
    {
      hide Exec, AllInv, Enabled, Step, Nested, Progress;
      Users(limit);
      while CONSUMER in sys.ops || sys.frames != []
        invariant Traced() && old(run) <= run
        invariant Polling(sys, limit) && Elsewhere(old(sys), sys)
        decreases |sys.frames|, Nested(sys)
      {
        Others(limit);
        var a := if CONSUMER in sys.ops then OpStep(CONSUMER) else EndDrop;
        NestedAdvances(sys);
        UserIsElsewhere(sys, a);
        Apply(a);
      }
      ElsewhereReaches(old(sys), sys, limit);
    }

    /** A step of `poll` itself. */
    method Own(a: Action, limit: nat)
      requires Polling(sys, limit) && Enabled(sys, a) && PollsOn(sys, a)
      requires Traced()
      modifies this
      ensures Traced() && old(run) <= run
      ensures sys == old(Step(sys, a)) && Advanced(old(sys), sys, limit) && Reached(old(sys), sys, limit)
    {
      hide Exec, AllInv, Enabled, Step, PollsOn, Progress;
      OwnReaches(sys, a, limit);
      Apply(a);
    }

    /** `register`, to its end. */
    method Register(limit: nat)
      requires Polling(sys, limit) && (sys.base.Registering? || sys.base.Popping?)
      requires Traced()
      modifies this
      ensures Traced() && old(run) <= run
      ensures Polling(sys, limit) && sys.base.Popping? && Reached(old(sys), sys, limit)
    {
      hide Exec, AllInv, Enabled, Step, PollsOn, Progress;
      while sys.base.Registering?
        invariant Traced() && old(run) <= run
        invariant sys.base.Registering? || sys.base.Popping?
        invariant Reached(old(sys), sys, limit)
        decreases Bound(limit) - Progress(sys)
      {
        ghost var s0 := sys;
        Others(limit);
        ghost var s1 := sys;
        RegisterIsNext(sys);
        Own(RegisterStep(NextRegister(sys.w.register)), limit);
        Then(s0, s1, sys, limit);
        Then(old(sys), s0, sys, limit);
      }
    }

    /** One `pop`, to its answer: a task, or `poll` returns. */
    method PopTask(limit: nat)
      requires Polling(sys, limit) && sys.base.Popping?
      requires Traced()
      modifies this
      ensures Traced() && old(run) <= run
      ensures Reached(old(sys), sys, limit) && (sys.base.Got? || sys.base.Out?)
    {
      hide Exec, AllInv, Enabled, Step, PollsOn, Progress;
      while sys.base.Popping?
        invariant Traced() && old(run) <= run
        invariant sys.base.Popping? || sys.base.Got? || sys.base.Out?
        invariant Reached(old(sys), sys, limit)
        decreases if sys.base.Popping? then 1 else 0, Bound(limit) - Progress(sys)
      {
        ghost var s0 := sys;
        Others(limit);
        ghost var s1 := sys;
        PopIsNext(sys);
        Own(PopStep(NextPop(sys.q.pop)), limit);
        Then(s0, s1, sys, limit);
        Then(old(sys), s0, sys, limit);
      }
    }

    /** What is done with a popped task: it is driven, or removed, or only its count is released. */
    method HandleTask(limit: nat)
      requires Polling(sys, limit) && sys.base.Got?
      requires Traced()
      modifies this
      ensures Traced() && old(run) <= run
      ensures Advanced(old(sys), sys, limit) && (sys.base.Popping? || sys.base.Out?)
    {
      hide Exec, AllInv, Enabled, Step, PollsOn, Progress, Advanced;
      Others(limit);
      ghost var s1 := sys;
      DispatchIsNext(sys);
      Own(Dispatch, limit);
      Then(old(sys), s1, sys, limit);
      ghost var s2 := sys;
      if sys.base.Driving? {
        DriveTask(limit);
        Then(old(sys), s2, sys, limit);
      } else if sys.base.Removing? {
        PopTaskAll(limit);
        Then(old(sys), s2, sys, limit);
      }
    }

    /** The future runs; then its task leaves the list if it is done, and its waker is dropped. */
    method DriveTask(limit: nat)
      requires Polling(sys, limit) && sys.base.Driving?
      requires Traced()
      modifies this
      ensures Traced() && old(run) <= run
      ensures Reached(old(sys), sys, limit) && (sys.base.Popping? || sys.base.Out?)
    {
      hide Exec, AllInv, Enabled, Step, PollsOn, Progress;
      RunUserCode(limit);
      ghost var s1 := sys;
      var ready: bool := *;
      EndDriveIsNext(sys, ready);
      Own(EndDrive(ready), limit);
      Then(old(sys), s1, sys, limit);
      if sys.base.Removing? {
        ghost var s2 := sys;
        PopTaskAll(limit);
        Then(old(sys), s2, sys, limit);
      }
      if sys.base.Dropping? {
        ghost var s3 := sys;
        Others(limit);
        ghost var s4 := sys;
        EndTurnIsNext(sys);
        Own(EndTurn, limit);
        Then(s3, s4, sys, limit);
        Then(old(sys), s3, sys, limit);
      }
    }

    /** The future of the task is dropped, which may run code, and then the task leaves the list. */
    method PopTaskAll(limit: nat)
      requires Polling(sys, limit) && sys.base.Removing?
      requires Traced()
      modifies this
      ensures Traced() && old(run) <= run
      ensures Polling(sys, limit) && Reached(old(sys), sys, limit)
      ensures if old(sys).base.driven then sys.base.Dropping? else sys.base.Popping?
    {
      hide Exec, AllInv, Enabled, Step, PollsOn, Progress;
      RunUserCode(limit);
      ghost var s1 := sys;
      DetachIsNext(sys);
      Own(Detach, limit);
      Then(old(sys), s1, sys, limit);
    }

    /**
     Polls the tasks in the queue.  Ready means that no task is left.  Pending means that the waker was
     registered, and that if all is quiet and a task is in the queue, that waker has been called.  With
     L tasks at first and n pushed meanwhile, no more than 2(L + n) futures are driven.
     */
    method Poll(waker: W.Waker, limit: nat) returns (ready: bool)
      requires AllInv(sys) && PollerTurn(sys) && sys.base.Out? && sys.alive && |sys.tasks| <= limit
      requires Traced()
      modifies this
      ensures Traced() && old(run) <= run
      ensures AllInv(sys) && sys.base.Out? && (ready <==> !sys.hist.pending)
      ensures ready ==> sys.all == {}
      ensures !ready ==> sys.w.current == Some(waker) && (sys.all != {} || sys.w.woken)
      ensures !ready && Idle(sys) && HasEntry(sys) ==> sys.w.woken
      ensures old(sys).all != {} ==> sys.iteration <= 2 * (|old(sys).all| + |sys.tasks| - |old(sys).tasks|)
    {
      hide Exec, AllInv, Enabled, Step, PollsOn, Progress;
      var empty := sys.all == {};
      PollBegins(sys, waker, limit);
      Apply(StartPoll(waker));
      if empty {
        return true;
      }
      ghost var s0 := sys;
      Register(limit);
      while true
        invariant Traced() && old(run) <= run
        invariant Polling(sys, limit) && sys.base.Popping? && Reached(s0, sys, limit)
        decreases Bound(limit) - Progress(sys)
      {
        ghost var s1 := sys;
        PopTask(limit);
        Then(s0, s1, sys, limit);
        if sys.base.Out? {
          break;
        }
        ghost var s2 := sys;
        HandleTask(limit);
        Then(s1, s2, sys, limit);
        Then(s0, s1, sys, limit);
        if sys.base.Out? {
          break;
        }
      }
      ready := !sys.hist.pending;
      PollEnds(sys);
    }

    /** A future is dropped, to the end of its code. */
    method RunDropCode()
      requires Listing(sys) && sys.base.ClearRemoving?
      requires Traced()
      modifies this
      ensures Traced() && old(run) <= run
      ensures Listing(sys) && sys.base == old(sys).base && sys.all == old(sys).all && PollerTurn(sys)
    {
      hide Exec, AllInv, Enabled, Step, Nested, Alone;
      var steps: nat := *;
      while steps > 0
        invariant Traced() && old(run) <= run
        invariant Listing(sys) && sys.base == old(sys).base && sys.all == old(sys).all
      {
        var a: Action := *;
        if Enabled(sys, a) && ByDrop(a) {
          DropKeeps(sys, a);
          Apply(a);
        }
        steps := steps - 1;
      }
      while CONSUMER in sys.ops || sys.frames != []
        invariant Traced() && old(run) <= run
        invariant Listing(sys) && sys.base == old(sys).base && sys.all == old(sys).all
        decreases |sys.frames|, Nested(sys)
      {
        var a := if CONSUMER in sys.ops then OpStep(CONSUMER) else EndDrop;
        NestedAdvances(sys);
        DropKeeps(sys, a);
        Apply(a);
      }
    }

    /** The first loop of `clear`: every task is taken off the list. */
    method ClearList()
      requires Listing(sys) && sys.base.ClearList?
      requires Traced()
      modifies this
      ensures Traced() && old(run) <= run
      ensures Draining(sys)
    {
      hide Exec, AllInv, Enabled, Step, Alone, Phase;
      while sys.all != {}
        invariant Traced() && old(run) <= run
        invariant Listing(sys) && sys.base.ClearList?
        decreases |sys.all|
      {
        ghost var before := sys.all;
        var t :| t in sys.all;
        ListIsNext(sys, t);
        ClearNextKeeps(sys, t);
        Apply(ClearNext(t));
        RunDropCode();
        DetachIsNextToo(sys);
        DetachShortens(sys);
        Apply(Detach);
      }
      ListIsNext(sys, 0);
      Apply(ClearNext(0));
    }

    /**
     Clears the list and then the queue.  With no other thread in the middle of an operation it comes to
     its end, whatever the dropped futures do: no task is left in the list or in the queue, and every
     future ever pushed was dropped exactly once.
     */
    method Clear()
      requires AllInv(sys) && PollerTurn(sys) && sys.base.Out? && sys.alive && sys.ops == map[]
      requires Traced()
      modifies this
      ensures Traced() && old(run) <= run
      ensures Cleared(sys)
    {
      hide Exec, AllInv, Enabled, Step, Alone, ClearLeft, NextDrain;
      ClearBegins(sys);
      Apply(StartClear);
      ClearList();
      while !sys.base.Out?
        invariant Traced() && old(run) <= run
        invariant if sys.base.Out? then Cleared(sys) else Draining(sys)
        decreases if sys.base.Out? then 0 else 1, ClearLeft(sys)
      {
        DrainIsNext(sys);
        Apply(NextDrain(sys));
      }
    }
  }

  /** Where a poll begins. */
  lemma PollBegins(s: Sys, waker: W.Waker, limit: nat)
    requires AllInv(s) && PollerTurn(s) && s.base.Out? && s.alive && |s.tasks| <= limit
    ensures Enabled(s, StartPoll(waker))
    ensures var s' := Step(s, StartPoll(waker));
      && AllInv(s')
      && (s.all == {} ==> s'.base.Out? && !s'.hist.pending && s'.all == {})
      && (s.all != {} ==>
        && Polling(s', limit) && (s'.base.Registering? || s'.base.Popping?) && s'.w.current == Some(waker)
        && s'.hist.start == |s.all| && s'.hist.created == 0 && s'.tasks == s.tasks)
  {
    assert BaseSync(s) && s.all <= s.tasks.Keys;
    SubsetSize(s.all, s.tasks.Keys);
    assert |s.tasks.Keys| == |s.tasks|;
    hide AllInv, Inv, W.Step;
    StepAll(s, StartPoll(waker));
    BeginIsCurrent(s.w, waker);
  }

  lemma PollEnds(s: Sys)
    requires AllInv(s)
    ensures s.hist.pending && !s.hist.outside && Idle(s) && HasEntry(s) ==> s.w.woken
  {
    hide HasEntry, Inv, WakeInv, Idle;
    if s.hist.pending && !s.hist.outside && Idle(s) && HasEntry(s) {
      NoLostWake(s);
    }
  }

  lemma BeginIsCurrent(w: W.State, waker: W.Waker)
    requires W.Enabled(w, W.Begin(waker))
    ensures W.Step(w, W.Begin(waker)).current == Some(waker)
  {
  }
}
