/** When a poll comes back before the queue is empty, told by what happened since it began. */
module SchedularYield {
  import opened Wrappers
  import opened Schedular
  import opened SchedularInv
  import opened SchedularRuns
  import T = SchedularTurns
  import Q = Queue
  import W = AtomicWaker

  /** A poll begins that finds tasks. */
  predicate Begins(s: Sys, a: Action) {
    a.StartPoll? && s.all != {}
  }

  /** The future of a popped task is driven. */
  predicate Drives(s: Sys, a: Action)
    requires Enabled(s, a)
  {
    a.Dispatch? && s.base.Got? && s.tasks[s.base.task].done.Running?
  }

  /** A driven future is pending, and its task has been queued again already. */
  predicate Requeues(s: Sys, a: Action)
    requires Enabled(s, a)
  {
    a == EndDrive(false) && s.tasks[s.base.task].queued
  }

  /** How many futures were driven since the last poll began. */
  ghost function Driven(run: seq<Action>): nat
    requires Exec(run).Some?
  {
    if run == [] then 0
    else
      var front, a := run[..|run| - 1], run[|run| - 1];
      var s := Exec(front).value;
      if Begins(s, a) then 0 else Driven(front) + if Drives(s, a) then 1 else 0
  }

  /** How many of them were pending with their tasks queued again. */
  ghost function Requeued(run: seq<Action>): nat
    requires Exec(run).Some?
  {
    if run == [] then 0
    else
      var front, a := run[..|run| - 1], run[|run| - 1];
      var s := Exec(front).value;
      if Begins(s, a) then 0 else Requeued(front) + if Requeues(s, a) then 1 else 0
  }

  /** What a step adds to the two counters of `poll`. */
  ghost predicate Counted(s: Sys, a: Action, s': Sys)
    requires Enabled(s, a)
  {
    && s'.iteration == (if Begins(s, a) then 0 else s.iteration + if Drives(s, a) then 1 else 0)
    && s'.yielded == (if Begins(s, a) then 0 else s.yielded + if Requeues(s, a) then 1 else 0)
  }

  lemma StepCounts(s: Sys, a: Action)
    requires Enabled(s, a)
    ensures Counted(s, a, Step(s, a))
  {
    if a.OpStep? {
      T.OpElsewhere(s, a.u);
      hide OpEffect, OpEnabled;
    } else if a.PopStep? {
      PopShape(s, a.qa);
      hide PopEffect, Q.Enabled;
    } else if a.Dispatch? || a.EndDrive? {
      TurnCounts(s, a);
      hide Step;
    } else {
      OtherCounts(s, a);
      hide Step;
    }
  }

  lemma TurnCounts(s: Sys, a: Action)
    requires Enabled(s, a) && (a.Dispatch? || a.EndDrive?)
    ensures Counted(s, a, Step(s, a))
  {
  }

  lemma OtherCounts(s: Sys, a: Action)
    requires Enabled(s, a) && !a.OpStep? && !a.PopStep? && !a.Dispatch? && !a.EndDrive?
    ensures Counted(s, a, Step(s, a))
  {
    hide Q.Step, Q.Enabled, W.Step, W.Enabled;
  }

  lemma {:induction false} CountersOfRun(run: seq<Action>)
    requires Exec(run).Some?
    ensures Exec(run).value.iteration == Driven(run) && Exec(run).value.yielded == Requeued(run)
  {
    if run != [] {
      var front, a := run[..|run| - 1], run[|run| - 1];
      CountersOfRun(front);
      StepCounts(Exec(front).value, a);
      hide Step, Enabled, Begins, Drives, Requeues;
    }
  }

  /**
   After a drive `poll` hands back to its parent, which it calls, exactly if the future was pending and
   either three of the futures that it drove were queued again at once, or it has driven more futures
   than there are tasks.
   */
  lemma YieldsExactly(run: seq<Action>, ready: bool)
    requires Exec(run + [EndDrive(ready)]).Some?
    ensures Exec(run).Some?
    ensures var s, s' := Exec(run).value, Exec(run + [EndDrive(ready)]).value;
      && (s'.base.Dropping? && s'.base.returning <==>
            !ready && (Requeued(run + [EndDrive(ready)]) > 2 || Driven(run) > s.len))
      && (s'.base.Dropping? && s'.base.returning ==> s'.w.woken)
  {
    var run' := run + [EndDrive(ready)];
    assert run'[..|run'| - 1] == run;
    CountersOfRun(run);
    CountersOfRun(run');
    assert Exec(run') == Some(Step(Exec(run).value, EndDrive(ready))) && Enabled(Exec(run).value, EndDrive(ready));
    hide Exec, Driven, Requeued;
    DriveEnds(Exec(run).value, ready);
  }

  lemma DriveEnds(s: Sys, ready: bool)
    requires Enabled(s, EndDrive(ready))
    ensures var s' := Step(s, EndDrive(ready));
      && (s'.base.Dropping? && s'.base.returning <==> !ready && (s'.yielded > 2 || s.iteration > s.len))
      && (s'.base.Dropping? && s'.base.returning ==> s'.w.woken)
  {
  }
}
