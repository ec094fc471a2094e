/**
 The scheduler with its all-list as it is stored: every step of the system is taken together with what
 it does to the linked list, whose tasks are the set `all` and whose `len` is that of the system.
 */
module SchedularList {
  import opened Schedular
  import opened SchedularInv
  import opened SchedularTasks
  import opened SchedularPoll
  import opened SchedularRuns
  import opened TaskList
  import Q = Queue
  import W = AtomicWaker

  /** The bodies in the list are those of the tasks of the set, one for each. */
  ghost predicate Lists(tasks: seq<TaskBody>, all: set<TaskId>, bodies: map<TaskId, TaskBody>) {
    && (forall b: TaskBody :: b in tasks ==> b.id in all && b.id in bodies && bodies[b.id] == b)
    && (forall t :: t in all ==> t in bodies && bodies[t].id == t && bodies[t] in tasks)
  }

  /** One body has left the list, and it is that of the one task that left the set. */
  ghost predicate LeftList(tasks: seq<TaskBody>, tasks': seq<TaskBody>, left: set<TaskId>) {
    exists b: TaskBody :: b in tasks && left == {b.id} && tasks' == Without(tasks, b)
  }

  lemma ListsPushed(tasks: seq<TaskBody>, all: set<TaskId>, bodies: map<TaskId, TaskBody>, b: TaskBody)
    requires Lists(tasks, all, bodies) && b.id !in all
    ensures Lists([b] + tasks, all + {b.id}, bodies[b.id := b])
  {
  }

  lemma ListsDetached(tasks: seq<TaskBody>, all: set<TaskId>, bodies: map<TaskId, TaskBody>, t: TaskId)
    requires Lists(tasks, all, bodies) && t in all
    requires forall i, j :: 0 <= i < j < |tasks| ==> tasks[i] != tasks[j]
    ensures bodies[t] in tasks && bodies[t].id == t && |Without(tasks, bodies[t])| == |tasks| - 1
    ensures Lists(Without(tasks, bodies[t]), all - {t}, bodies)
  {
    WithoutMembers(tasks, bodies[t]);
    forall b: TaskBody | b in Without(tasks, bodies[t])
      ensures b in tasks && b.id != t
    {
      var i :| 0 <= i < |Without(tasks, bodies[t])| && Without(tasks, bodies[t])[i] == b;
      assert b in tasks && b != bodies[t];
    }
  }

  class LinkedSchedular {
    var sys: Sys
    const list: AllTasks
    var bodies: map<TaskId, TaskBody>

    /** The linked list holds exactly the tasks of the system, and counts as many. */
    ghost predicate Coupled()
      reads this, list, list.Tasks
    {
      && AllInv(sys) && list.Valid() && list.len == sys.len
      && |list.Tasks| == |sys.all| && list.uncounted == (if Counting(sys) then 1 else 0)
      && Lists(list.Tasks, sys.all, bodies)
    }

    constructor ()
      ensures Coupled() && sys == Schedular.Init()
    {
      sys, bodies := Schedular.Init(), map[];
      list := new AllTasks();
      new;
      InitAll();
    }

    /**
     One step of the system. A task that is pushed is put at the front of the list, one that is detached
     is taken out of it, and `len` counts a pushed task when its push to the queue has ended.
     */
    method Apply(a: Action)
      requires Coupled() && Enabled(sys, a)
      modifies this, list, list.Tasks
      ensures Coupled() && sys == old(Step(sys, a))
      ensures a.PushTask? ==> |list.Tasks| == |old(list.Tasks)| + 1 && list.Tasks[1..] == old(list.Tasks)
      ensures a.Detach? ==> LeftList(old(list.Tasks), list.Tasks, old(sys.all) - sys.all)
      ensures !a.PushTask? && !a.Detach? ==> list.Tasks == old(list.Tasks)
    {
      hide AllInv, Step, Enabled, Counting, Without, Lists, list.Linked;
      if a.PushTask? {
        ApplyPush(a.task);
      } else if a.Detach? {
        ApplyDetach();
      } else {
        ApplyOther(a);
      }
    }

    method ApplyPush(t: TaskId)
      requires Coupled() && Enabled(sys, PushTask(t))
      modifies this, list, list.Tasks
      ensures Coupled() && sys == old(Step(sys, PushTask(t)))
      ensures |list.Tasks| == |old(list.Tasks)| + 1 && list.Tasks[1..] == old(list.Tasks)
    {
      hide AllInv, Step, Enabled, Counting, list.Linked;
      PushFacts(sys, t);
      var b := new TaskBody(t);
      ListsPushed(list.Tasks, sys.all, bodies, b);
      hide Lists;
      list.PushTaskToAll(b);
      bodies := bodies[t := b];
      sys := Step(sys, PushTask(t));
    }

    method ApplyDetach()
      requires Coupled() && Enabled(sys, Action.Detach)
      modifies this, list, list.Tasks
      ensures Coupled() && sys == old(Step(sys, Action.Detach))
      ensures LeftList(old(list.Tasks), list.Tasks, old(sys.all) - sys.all)
    {
      hide AllInv, Step, Enabled, Counting, Without;
      DetachFacts(sys);
      ListsDetached(list.Tasks, sys.all, bodies, sys.base.task);
      hide list.Linked;
      var b := bodies[sys.base.task];
      hide Lists;
      list.Detach(b);
      sys := Step(sys, Action.Detach);
    }

    method ApplyOther(a: Action)
      requires Coupled() && Enabled(sys, a) && !a.PushTask? && !a.Detach?
      modifies this`sys, list`len, list`uncounted
      ensures Coupled() && sys == old(Step(sys, a)) && list.Tasks == old(list.Tasks)
    {
      OtherFacts(sys, a);
      hide AllInv, Step, Enabled, list.Linked, Lists, Counting;
      Settle(Step(sys, a));
    }

    /** The next state, and the count of a pushed task whose push has ended with it. */
    method Settle(s': Sys)
      requires Coupled() && AllInv(s') && s'.all == sys.all && (Counting(s') ==> Counting(sys))
      requires s'.len == sys.len + (if Counting(sys) then 1 else 0) - (if Counting(s') then 1 else 0)
      modifies this`sys, list`len, list`uncounted
      ensures Coupled() && sys == s' && list.Tasks == old(list.Tasks)
    {
      hide AllInv, list.Linked, Lists, Counting;
      if Counting(sys) && !Counting(s') {
        list.CountTask();
      }
      sys := s';
    }
  }

  // ----- what the steps do to the list

  lemma AllUnchanged(s: Sys, a: Action)
    requires Enabled(s, a) && !a.PushTask? && !a.Detach?
    ensures Step(s, a).all == s.all
  {
    if a.OpStep? {
      OpHistory(s, a.u);
      hide OpEffect, OpEnabled;
    } else if a.CloneWaker? || a.DropWaker? || a.StartWake? || a.StartCancel? || a.EndDrop? {
      HandlePoll(s, a);
      hide Step, Enabled;
    } else {
      TurnKeepsAll(s, a);
      hide Step, Enabled;
    }
  }

  lemma TurnKeepsAll(s: Sys, a: Action)
    requires Enabled(s, a)
    requires a.StartPoll? || a.RegisterStep? || a.PopStep? || a.Dispatch? || a.EndDrive? || a.EndTurn? ||
             a.StartClear? || a.ClearNext? || a.DropSchedular?
    ensures Step(s, a).all == s.all
  {
    if a.PopStep? {
      PopShape(s, a.qa);
      hide PopEffect, Q.Step, Q.Enabled;
    } else {
      hide Q.Step, Q.Enabled, W.Step, W.Enabled, PopEffect;
    }
  }

  /** Only a push from `push_cancellable` makes a task that is still to be counted. */
  lemma CountingEnds(s: Sys, a: Action)
    requires Enabled(s, a) && Counting(Step(s, a)) && !a.PushTask?
    ensures Counting(s)
  {
    if a.OpStep? {
      OpKeepsKind(s, a.u);
      if a.u != CONSUMER {
        Others(s.ops, Step(s, a).ops, a.u, CONSUMER);
      }
      hide OpEffect, OpEnabled;
    } else if a.StartWake? || a.StartCancel? || a.EndDrop? {
      StartShape(s, a);
      hide Step;
    } else {
      OtherOps(s, a);
      hide Step, Enabled;
    }
  }

  /** What the list has to do with a pushed task. */
  lemma PushFacts(s: Sys, t: TaskId)
    requires AllInv(s) && Enabled(s, PushTask(t))
    ensures var s' := Step(s, PushTask(t));
      && AllInv(s') && t !in s.all && s'.all == s.all + {t} && |s'.all| == |s.all| + 1
      && s'.len == s.len && !Counting(s) && Counting(s')
  {
    StepAll(s, PushTask(t));
    assert s.all <= s.tasks.Keys;
    hide AllInv;
  }

  lemma DetachFacts(s: Sys)
    requires AllInv(s) && Enabled(s, Action.Detach)
    ensures var s' := Step(s, Action.Detach);
      && AllInv(s') && (s.base.Removing? || s.base.ClearRemoving?) && s.base.task in s.all && s'.all == s.all - {s.base.task} && |s'.all| == |s.all| - 1
      && s'.len == s.len - 1 && !Counting(s) && !Counting(s')
  {
    StepAll(s, Action.Detach);
    assert TaskAt(s, s.base.task);
    hide AllInv;
  }

  lemma OtherFacts(s: Sys, a: Action)
    requires AllInv(s) && Enabled(s, a) && !a.PushTask? && !a.Detach?
    ensures var s' := Step(s, a);
      && AllInv(s') && s'.all == s.all && (Counting(s') ==> Counting(s))
      && s'.len == s.len + (if Counting(s) then 1 else 0) - (if Counting(s') then 1 else 0)
  {
    StepAll(s, a);
    AllUnchanged(s, a);
    if Counting(Step(s, a)) {
      CountingEnds(s, a);
    }
    hide Step, Enabled;
    ListCounts(s);
    ListCounts(Step(s, a));
    hide AllInv;
  }

  lemma ListCounts(s: Sys)
    requires AllInv(s)
    ensures s.len + (if Counting(s) then 1 else 0) == |s.all|
  {
  }

  lemma {:induction false} WithoutMembers(ts: seq<TaskBody>, t: TaskBody)
    requires t in ts && forall i, j :: 0 <= i < j < |ts| ==> ts[i] != ts[j]
    ensures |Without(ts, t)| == |ts| - 1
    ensures forall i :: 0 <= i < |Without(ts, t)| ==> Without(ts, t)[i] in ts && Without(ts, t)[i] != t
    ensures forall i :: 0 <= i < |ts| && ts[i] != t ==> ts[i] in Without(ts, t)
  {
    if ts[0] != t {
      WithoutMembers(ts[1..], t);
    }
  }
}
