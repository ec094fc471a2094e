/**
 One whole run of the tree runtime: the root begins a scope, a poll drives it to its result, the root is
 driven again and takes it, and the runner is dropped with nothing left behind.
 */
module TreeWitness {
  import opened Wrappers
  import opened Schedular
  import opened SchedularRuns
  import opened SchedularWitness
  import opened TreeRuntime
  import Q = Queue

  lemma ExtendTree(run: seq<TreeAction>, r: Tree, b: TreeAction)
    requires ExecTree(run) == Some(r) && CanStep(r, b)
    ensures ExecTree(run + [b]) == Some(StepTree(r, b))
  {
    assert (run + [b])[..|run + [b]| - 1] == run;
  }

  function Works(steps: seq<Action>): (bs: seq<TreeAction>)
    ensures |bs| == |steps| && forall k :: 0 <= k < |bs| ==> bs[k] == Work(steps[k])
  {
    seq(|steps|, k requires 0 <= k < |steps| => Work(steps[k]))
  }

  /** A step of the scheduler that is no concern of the driver. */
  predicate Plain(a: Action) {
    a.OpStep? || a.RegisterStep? || a.PopStep?
  }

  lemma PlainStep(r: Tree, a: Action)
    requires Enabled(r.sys, a) && Plain(a)
    requires Step(r.sys, a).base.Out? ==> r.driver.Root?
    ensures CanStep(r, Work(a)) && StepTree(r, Work(a)) == r.(sys := Step(r.sys, a))
    ensures r.sys.base.Out? ==> Step(r.sys, a).base.Out?
  {
    WorkPlace(r.sys, a);
    hide Step, Enabled;
  }

  lemma WorksSplit(trun: seq<TreeAction>, steps: seq<Action>)
    requires steps != []
    ensures trun + Works(steps) == trun + Works(steps[..|steps| - 1]) + [Work(steps[|steps| - 1])]
  {
  }

  /** What the scheduler does by itself, it does in the runtime, while a poll goes on or the root is driven. */
  lemma {:induction false} Lift(trun: seq<TreeAction>, r: Tree, before: seq<Action>, steps: seq<Action>)
    requires ExecTree(trun) == Some(r) && Exec(before) == Some(r.sys) && Exec(before + steps).Some?
    requires forall k :: 0 <= k < |steps| ==> Plain(steps[k])
    requires Exec(before + steps).value.base.Out? ==> r.driver.Root?
    ensures ExecTree(trun + Works(steps)) == Some(r.(sys := Exec(before + steps).value))
  {
    hide ExecTree, Exec, CanStep, StepTree, Step, Enabled;
    if steps == [] {
      assert before + steps == before && trun + Works(steps) == trun;
    } else {
      var front, a := steps[..|steps| - 1], steps[|steps| - 1];
      var s := LastPlain(before, steps);
      Lift(trun, r, before, front);
      PlainStep(r.(sys := s), a);
      ExtendTree(trun + Works(front), r.(sys := s), Work(a));
      hide Works, Plain;
      WorksSplit(trun, steps);
    }
  }

  lemma LastPlain(before: seq<Action>, steps: seq<Action>) returns (s: Sys)
    requires steps != [] && Exec(before + steps).Some? && Plain(steps[|steps| - 1])
    ensures var front, a := steps[..|steps| - 1], steps[|steps| - 1];
      && Exec(before + front) == Some(s) && Enabled(s, a) && Exec(before + steps) == Some(Step(s, a))
      && (s.base.Out? ==> Step(s, a).base.Out?)
  {
    assert (before + steps)[..|before + steps| - 1] == before + steps[..|steps| - 1];
    s := Exec(before + steps[..|steps| - 1]).value;
    WorkPlace(s, steps[|steps| - 1]);
    hide Step, Enabled;
  }

  lemma StepsArePlain()
    ensures forall k :: 0 <= k < |PollSteps| ==> Plain(PollSteps[k])
    ensures forall k :: 0 <= k < |PushSteps| ==> Plain(PushSteps[k])
  {
  }

  const Root0: Tree := InitTree().(driver := Root)

  /** The root has begun scope 1. */
  const Begun: Tree := Tree(Pushed1, Root, [0], 1, map[1 := InFrame(0)], {})

  lemma RootBeginsScope() returns (run: seq<TreeAction>)
    ensures ExecTree(run) == Some(Begun)
  {
    var before := PushOne();
    assert ExecTree([]) == Some(InitTree());
    assert before[..1] == [PushTask(1)] && before == [PushTask(1)] + PushSteps;
    var s1 := Step(Init(), PushTask(1));
    PushTaskAlone(s1);
    hide ExecTree, Exec;
    ExtendTree([], InitTree(), Drive(5));
    run := [] + [Drive(5)];
    ExtendTree(run, Root0, Work(PushTask(1)));
    var r1 := Root0.(sys := s1, owners := map[1 := InFrame(0)]);
    assert StepTree(Root0, Work(PushTask(1))) == r1;
    run := run + [Work(PushTask(1))];
    hide StepTree, CanStep;
    Lift(run, r1, [PushTask(1)], PushSteps);
    run := run + Works(PushSteps);
  }

  lemma PushTaskAlone(s1: Sys)
    requires Enabled(Init(), PushTask(1)) && s1 == Step(Init(), PushTask(1))
    ensures Exec([PushTask(1)]) == Some(s1)
  {
    assert Exec([]) == Some(Init());
    Extend([], Init(), PushTask(1));
    assert [] + [PushTask(1)] == [PushTask(1)];
  }

  /** The poll has popped the task of the scope. */
  const Polled: Tree := Begun.(driver := Polling, sys := Popped1(Pushed1))

  lemma PollPopsScope(before: seq<TreeAction>) returns (run: seq<TreeAction>)
    requires ExecTree(before) == Some(Begun)
    ensures ExecTree(run) == Some(Polled)
  {
    var pushed := PushOne();
    var polled := PollPops(pushed, Pushed1);
    StepsArePlain();
    hide ExecTree, Exec, Step, Enabled, StepTree, CanStep, PollSteps, PushSteps, Plain;
    var s2: Sys;
    run, s2 := RootRests(before);
    Extend(pushed, Pushed1, StartPoll(5));
    var r2 := Begun.(driver := Polling, sys := s2);
    Lift(run, r2, pushed + [StartPoll(5)], PollSteps);
    run := run + Works(PollSteps);
  }

  lemma RootRests(before: seq<TreeAction>) returns (run: seq<TreeAction>, s: Sys)
    requires ExecTree(before) == Some(Begun)
    ensures Enabled(Pushed1, StartPoll(5)) && s == Step(Pushed1, StartPoll(5))
    ensures ExecTree(run) == Some(Begun.(driver := Polling, sys := s))
  {
    hide ExecTree, Exec;
    ExtendTree(before, Begun, Return);
    run := before + [Return];
    assert Begun.sys == Pushed1;
    assert Enabled(Pushed1, StartPoll(5));
    s := Step(Pushed1, StartPoll(5));
    hide Step, Enabled;
    ExtendTree(run, Begun.(driver := Resting), Drive(5));
    run := run + [Drive(5)];
  }

  /** The root is driven again, and the place of its scope is filled. */
  const Found: Tree := Tree(
    Popped1(Pushed1).(tasks := map[1 := Task(Done, true, 1, 1)], all := {}, len := 0, base := Out, iteration := 1),
    Root, [0], 1, map[1 := InFrame(0)], {1})

  lemma ScopeFinishes(before: seq<TreeAction>) returns (run: seq<TreeAction>)
    requires ExecTree(before) == Some(Polled)
    ensures ExecTree(run) == Some(Found)
  {
    hide ExecTree;
    run := TaskIsDone(before);
    var r2 := Found.(driver := Polling, sys := Found.sys.(tasks := map[1 := Task(Done, true, 3, 1)], all := {1}, len := 1,
                                                          base := Removing(1, true)));
    ExtendTree(run, r2, Work(Detach));
    var r3 := Found.(driver := Polling, sys := Found.sys.(tasks := map[1 := Task(Done, true, 2, 1)], base := Schedular.Dropping(1, false)));
    assert StepTree(r2, Work(Detach)) == r3;
    run := run + [Work(Detach)];
    run := PollAnswersReady(run, r3);
  }

  lemma TaskIsDone(before: seq<TreeAction>) returns (run: seq<TreeAction>)
    requires ExecTree(before) == Some(Polled)
    ensures ExecTree(run) == Some(
      Found.(driver := Polling, sys := Found.sys.(tasks := map[1 := Task(Done, true, 3, 1)], all := {1}, len := 1,
                                                  base := Removing(1, true))))
  {
    hide ExecTree;
    var s0 := Popped1(Pushed1);
    ExtendTree(before, Polled, Work(Dispatch));
    var r1 := Polled.(sys := s0.(tasks := map[1 := Task(Running, false, 3, 0)], base := Driving(1), iteration := 1));
    assert StepTree(Polled, Work(Dispatch)) == r1;
    run := TaskAnswers(before + [Work(Dispatch)], r1);
  }

  lemma TaskAnswers(before: seq<TreeAction>, r: Tree) returns (run: seq<TreeAction>)
    requires ExecTree(before) == Some(r)
    requires r == Polled.(sys := Popped1(Pushed1).(tasks := map[1 := Task(Running, false, 3, 0)], base := Driving(1), iteration := 1))
    ensures ExecTree(run) == Some(
      Found.(driver := Polling, sys := Found.sys.(tasks := map[1 := Task(Done, true, 3, 1)], all := {1}, len := 1,
                                                  base := Removing(1, true))))
  {
    hide ExecTree;
    ExtendTree(before, r, Work(EndDrive(true)));
    var s := Step(r.sys, EndDrive(true));
    assert s.tasks == map[1 := Task(Done, true, 3, 1)];
    assert s == Found.sys.(tasks := s.tasks, all := {1}, len := 1, base := Removing(1, true));
    assert StepTree(r, Work(EndDrive(true))) == Found.(driver := Polling, sys := s) by { assert r.filled + {1} == {1}; }
    hide Step, StepTree, CanStep;
    run := before + [Work(EndDrive(true))];
  }

  lemma PollAnswersReady(before: seq<TreeAction>, r: Tree) returns (run: seq<TreeAction>)
    requires r == Found.(driver := Polling, sys := Found.sys.(tasks := map[1 := Task(Done, true, 2, 1)], base := Schedular.Dropping(1, false)))
    requires ExecTree(before) == Some(r)
    ensures ExecTree(run) == Some(Found)
  {
    hide ExecTree;
    ExtendTree(before, r, Work(EndTurn));
    var r1 := Found.(driver := Polling, sys := Found.sys.(base := Popping));
    assert StepTree(r, Work(EndTurn)) == r1;
    run := before + [Work(EndTurn)];
    ExtendTree(run, r1, Work(PopStep(Q.PopLoad)));
    assert StepTree(r1, Work(PopStep(Q.PopLoad))) == Found;
    run := run + [Work(PopStep(Q.PopLoad))];
  }

  /** The end: no frame, no task, no count, no entry. */
  const Over: Tree := Found.(
    driver := Ended, frames := [],
    sys := Found.sys.(tasks := map[1 := Task(Done, true, 0, 1)], tokens := {}, hist := Found.sys.hist.(cleared := true)))

  lemma RootTakesResult(before: seq<TreeAction>) returns (run: seq<TreeAction>)
    requires ExecTree(before) == Some(Found)
    ensures ExecTree(run) == Some(Over.(driver := Root, sys := Over.sys.(hist := Found.sys.hist)))
  {
    hide ExecTree;
    ExtendTree(before, Found, Work(StartCancel(1)));
    var r1 := Found.(sys := Found.sys.(tokens := {}, ops := map[CONSUMER := Release(1, Cancel)]));
    assert StepTree(Found, Work(StartCancel(1))) == r1;
    run := before + [Work(StartCancel(1))];
    ExtendTree(run, r1, Work(OpStep(CONSUMER)));
    var r2 := Found.(sys := Over.sys.(hist := Found.sys.hist));
    assert StepTree(r1, Work(OpStep(CONSUMER))) == r2;
    run := run + [Work(OpStep(CONSUMER))];
    ExtendTree(run, r2, Finish);
    run := run + [Finish];
  }

  lemma RunnerIsDropped(before: seq<TreeAction>) returns (run: seq<TreeAction>)
    requires ExecTree(before) == Some(Over.(driver := Root, sys := Over.sys.(hist := Found.sys.hist)))
    ensures ExecTree(run) == Some(Over)
  {
    hide ExecTree;
    var r0 := Over.(driver := Root, sys := Over.sys.(hist := Found.sys.hist));
    ExtendTree(before, r0, Return);
    run := before + [Return];
    ExtendTree(run, r0.(driver := Resting), DropRunner);
    var r1 := r0.(driver := Clearing, sys := r0.sys.(base := ClearList));
    assert StepTree(r0.(driver := Resting), DropRunner) == r1;
    run := run + [DropRunner];
    ExtendTree(run, r1, Work(ClearNext(0)));
    assert StepTree(r1, Work(ClearNext(0))) == r1.(sys := r0.sys.(base := ClearPop));
    run := ClearIsEmpty(run + [Work(ClearNext(0))]);
  }

  lemma ClearIsEmpty(before: seq<TreeAction>) returns (run: seq<TreeAction>)
    requires ExecTree(before) == Some(Over.(driver := Clearing, sys := Over.sys.(hist := Found.sys.hist, base := ClearPop)))
    ensures ExecTree(run) == Some(Over)
  {
    hide ExecTree;
    var r := Over.(driver := Clearing, sys := Over.sys.(hist := Found.sys.hist, base := ClearPop));
    ExtendTree(before, r, Work(PopStep(Q.PopLoad)));
    var s := Step(r.sys, PopStep(Q.PopLoad));
    assert s == Over.sys;
    assert StepTree(r, Work(PopStep(Q.PopLoad))) == Over by { assert r.filled + {} == {1}; }
    hide Step, StepTree, CanStep;
    run := before + [Work(PopStep(Q.PopLoad))];
  }

  /**
   A run from its beginning to its end: scope 1 is begun by the root, driven to its result and its place
   filled while it is awaited; then the root is driven again, and in the end the task is freed.
   */
  lemma ScopeRunsToItsEnd() returns (found: seq<TreeAction>, run: seq<TreeAction>)
    ensures ExecTree(found) == Some(Found) && Found.driver.Root? && 1 in Found.sys.tokens && 1 in Found.filled
    ensures ExecTree(run) == Some(Over) && Over.driver.Ended? && Over.sys.tasks[1].count == 0
  {
    hide ExecTree;
    found := RootBeginsScope();
    found := PollPopsScope(found);
    found := ScopeFinishes(found);
    run := RootTakesResult(found);
    run := RunnerIsDropped(run);
  }
}
