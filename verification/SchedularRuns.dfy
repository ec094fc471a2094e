/**
 What the scheduler promises over whole runs: any interleaving of the consumer's steps with those of
 any number of threads that hold wakers.
 */
module SchedularRuns {
  import opened Wrappers
  import opened Schedular
  import opened SchedularPlaces
  import opened SchedularInv
  import opened SchedularHolders
  import opened SchedularTasks
  import opened SchedularSafety
  import opened SchedularWake
  import opened SchedularPoll
  import Q = Queue
  import W = AtomicWaker

  ghost function Exec(run: seq<Action>): Option<Sys> {
    if run == [] then Some(Init())
    else
      var before := Exec(run[..|run| - 1]);
      var a := run[|run| - 1];
      if before.Some? && Enabled(before.value, a) then Some(Step(before.value, a)) else None
  }

  ghost predicate AllInv(s: Sys) {
    Inv(s) && WakeInv(s) && PollInv(s) && DrainedInv(s)
  }

  lemma StepAll(s: Sys, a: Action)
    requires AllInv(s) && Enabled(s, a)
    ensures AllInv(Step(s, a))
  {
    hide Inv, WakeInv, PollInv, DrainedInv, Step, Enabled;
    StepInv(s, a);
    WakeStep(s, a);
    DrainedStep(s, a);
    PollStepInv(s, a);
  }

  lemma InitAll()
    ensures AllInv(Init())
  {
    InitInv();
  }

  lemma {:induction false} RunInv(run: seq<Action>)
    requires Exec(run).Some?
    ensures AllInv(Exec(run).value)
  {
    hide AllInv, Step, Enabled;
    if run == [] {
      InitAll();
    } else {
      RunInv(run[..|run| - 1]);
      StepAll(Exec(run[..|run| - 1]).value, run[|run| - 1]);
    }
  }

  // ----- counts

  /**
   In every reachable state the strong count of a task is the number of its holders: list, queue
   entry, token, wakers, operations in progress, poller, and one more if it was drained through poll's
   Cancelled branch.  Whoever holds a count refers to a task that is not freed.
   */
  lemma CountIsHolders(run: seq<Action>, t: TaskId, h: Holder)
    requires Exec(run).Some?
    ensures var s := Exec(run).value;
            && (t in s.tasks ==> s.tasks[t].count == |Holders(s, t)|)
            && (IsHolder(s, t, h) ==> t in s.tasks && s.tasks[t].count > 0)
  {
    RunInv(run);
    var s := Exec(run).value;
    HolderIff(s, t, h);
    if IsHolder(s, t, h) {
      HolderKnown(s, t, h);
      assert |Holders(s, t) - {h}| == |Holders(s, t)| - 1;
    }
  }

  /** The step only changes the record of a task that `h` holds. */
  ghost predicate Touches(s: Sys, s': Sys, h: Holder) {
    forall t :: t in s.tasks && t in s'.tasks && s'.tasks[t] != s.tasks[t] ==> IsHolder(s, t, h)
  }

  lemma OpTouches(s: Sys, u: Tid)
    requires OpEnabled(s, u)
    ensures Touches(s, OpEffect(s, u), Thread(u))
  {
    hide Q.Step, Q.Enabled, W.Step, W.Enabled, QueueHeld, WakeAction, PushAction, InChain;
  }

  lemma CloneTouches(s: Sys, t: TaskId, to: HandleId, h: Holder)
    requires t in s.tasks && IsHolder(s, t, h)
    ensures Touches(s, CloneEffect(s, t, to), h)
  {
  }

  lemma StartTouches(s: Sys, a: Action) returns (h: Holder)
    requires Enabled(s, a)
    requires a.CloneWaker? || a.DropWaker? || a.StartWake? || a.PushTask? || a.StartCancel? || a.EndDrop?
    ensures Touches(s, Step(s, a), h) && !h.Entry? && !h.Leaked?
  {
    hide InChain, Q.Enabled, W.Enabled, CloneEffect;
    match a
    case CloneWaker(from, to) =>
      h := if from.Some? then Handle(from.value) else Poller;
      CloneTouches(s, if from.Some? then s.handles[from.value] else s.base.task, to, h);
    case DropWaker(k) => h := Handle(k);
    case StartWake(_, _) => h := Token;
    case PushTask(_) => h := Token;
    case StartCancel(_) => h := Token;
    case EndDrop => h := Token;
  }

  lemma DispatchTouches(s: Sys)
    requires Enabled(s, Dispatch)
    ensures Touches(s, Step(s, Dispatch), Poller)
  {
    hide InChain, Q.Enabled, W.Enabled;
  }

  lemma TurnTouches(s: Sys, a: Action)
    requires Enabled(s, a) && (a.EndDrive? || a.EndTurn?)
    ensures Touches(s, Step(s, a), Poller)
  {
    hide InChain, Q.Enabled, W.Enabled;
  }

  lemma RemoveTouches(s: Sys, a: Action)
    requires Enabled(s, a) && (a.Detach? || a.ClearNext?) && (a.Detach? ==> s.base.task in s.all)
    ensures Touches(s, Step(s, a), AllList)
  {
    hide InChain, Q.Enabled, W.Enabled;
  }

  lemma OtherTouchesNothing(s: Sys, a: Action)
    requires Enabled(s, a)
    requires a.StartPoll? || a.RegisterStep? || a.PopStep? || a.StartClear? || a.DropSchedular?
    ensures Step(s, a).tasks == s.tasks
  {
    hide Q.Step, Q.Enabled, W.Step, W.Enabled, Enabled;
  }

  lemma StepTouches(s: Sys, a: Action) returns (h: Holder)
    requires Inv(s) && Enabled(s, a)
    ensures Touches(s, Step(s, a), h) && !h.Entry? && !h.Leaked?
  {
    h := AllList;
    if a.Detach? { assert TaskAt(s, s.base.task); }
    hide Inv, OpEffect, IsHolder;
    match a
    case OpStep(u) => OpTouches(s, u); h := Thread(u);
    case Dispatch => DispatchTouches(s); h := Poller;
    case EndDrive(_) => TurnTouches(s, a); h := Poller;
    case EndTurn => TurnTouches(s, a); h := Poller;
    case Detach => RemoveTouches(s, a);
    case ClearNext(_) => RemoveTouches(s, a);
    case StartPoll(_) => OtherTouchesNothing(s, a);
    case RegisterStep(_) => OtherTouchesNothing(s, a);
    case PopStep(_) => OtherTouchesNothing(s, a);
    case StartClear => OtherTouchesNothing(s, a);
    case DropSchedular => OtherTouchesNothing(s, a);
    case _ => h := StartTouches(s, a);
  }

  /** A freed task is never touched again, and nobody comes to refer to it. */
  lemma FreedIsGone(run: seq<Action>, a: Action, t: TaskId, h: Holder)
    requires Exec(run + [a]).Some?
    ensures Exec(run).Some?
    ensures var s, s' := Exec(run).value, Exec(run + [a]).value;
            t in s.tasks && s.tasks[t].count == 0 ==>
              t in s'.tasks && s'.tasks[t] == s.tasks[t] && !IsHolder(s, t, h) && !IsHolder(s', t, h)
  {
    assert (run + [a])[..|run + [a]| - 1] == run;
    var s := Exec(run).value;
    RunInv(run);
    if t in s.tasks && s.tasks[t].count == 0 {
      var k := StepTouches(s, a);
      StepForward(s, a);
      CountIsHolders(run, t, k);
      CountIsHolders(run, t, h);
      CountIsHolders(run + [a], t, h);
    }
  }

  // ----- flags

  /**
   A task has at most one claim to a queue entry, and only with its flag set; a set flag means that it
   is in the queue, on its way there, just popped, or already removed.
   */
  lemma OneEntry(run: seq<Action>, t: TaskId, h: Holder, k: Holder)
    requires Exec(run).Some?
    ensures var s := Exec(run).value;
            && (Claims(s, t, h) ==> t in s.tasks && s.tasks[t].queued)
            && (Claims(s, t, h) && Claims(s, t, k) ==> h == k)
            && (t in s.tasks && s.tasks[t].queued ==> s.tasks[t].done.Done? || HasClaim(s, t))
  {
    RunInv(run);
  }

  /** The assert on the swapped flag in `poll` never fails. */
  lemma AssertHolds(run: seq<Action>)
    requires Exec(run).Some?
    ensures !Exec(run).value.panicked
  {
    RunInv(run);
  }

  lemma ProducerItem(q: Q.State, v: Tid)
    requires Q.Inv(q) && v in q.producers
    ensures q.producers[v].Cleared? || InChain(q, q.producers[v].node)
  {
    var p := q.producers[v];
    assert Q.ProducerOk(q, p);
    if p.Swapped? {
      assert q.order[p.at] in q.order[q.pos..];
    }
  }

  /** A node about to be pushed is free: the precondition of `push` always holds. */
  lemma StoreIsFree(s: Sys, u: Tid)
    requires Inv(s) && u in s.ops && s.ops[u].Store?
    ensures Q.Enabled(s.q, Q.Store(u, s.ops[u].task))
  {
    var t := s.ops[u].task;
    assert SyncAt(s, u);
    assert Claims(s, t, Thread(u)) && !Claims(s, t, Entry);
    forall v | v in s.q.producers
      ensures s.q.producers[v].node != Q.Item(t)
    {
      assert SyncAt(s, v);
      ProducerItem(s.q, v);
      assert s.q.producers[v].node == Q.Item(t) && s.q.producers[v].Cleared? ==> Claims(s, t, Thread(v));
    }
  }

  lemma OpReady(s: Sys, u: Tid)
    requires SyncAt(s, u) && u in s.ops
    requires s.ops[u].TryQueue? || s.ops[u].Release? ==> s.ops[u].task in s.tasks
    requires s.ops[u].Store? ==> Q.Enabled(s.q, Q.Store(u, s.ops[u].task))
    ensures OpEnabled(s, u)
  {
  }

  /** No operation is ever stuck: in every reachable state each can take its next step. */
  lemma NoOperationIsStuck(run: seq<Action>, u: Tid)
    requires Exec(run).Some? && u in Exec(run).value.ops
    ensures OpEnabled(Exec(run).value, u)
  {
    RunInv(run);
    OpNotStuck(Exec(run).value, u);
  }

  lemma OpNotStuck(s: Sys, u: Tid)
    requires Inv(s) && u in s.ops
    ensures OpEnabled(s, u)
  {
    assert SyncAt(s, u);
    if s.ops[u].Store? { StoreIsFree(s, u); }
    if s.ops[u].TryQueue? || s.ops[u].Release? {
      HolderKnown(s, s.ops[u].task, Thread(u));
    }
    hide Inv, OpEnabled, SyncAt;
    OpReady(s, u);
  }

  /** A waker in someone's hands can be used: it can be dropped and cloned, and any idle thread can wake with it. */
  lemma WakersCanBeUsed(run: seq<Action>, h: HandleId, to: HandleId, u: Tid)
    requires Exec(run).Some? && h in Exec(run).value.handles
    ensures var s := Exec(run).value;
      && Enabled(s, DropWaker(h))
      && (to !in s.handles ==> Enabled(s, CloneWaker(Some(h), to)))
      && (u !in s.ops && u != CONSUMER ==> Enabled(s, StartWake(h, u)))
  {
    RunInv(run);
    HolderKnown(Exec(run).value, Exec(run).value.handles[h], Handle(h));
  }

  /** Whoever has the scheduler can use it between polls: push, poll and clear, and drop any token. */
  lemma CallerCanCall(run: seq<Action>, waker: W.Waker, t: TaskId)
    requires Exec(run).Some? && PollerTurn(Exec(run).value) && Exec(run).value.base.Out?
    ensures var s := Exec(run).value;
      && (s.alive ==> Enabled(s, StartPoll(waker)) && Enabled(s, StartClear))
      && (s.alive && t !in s.tasks ==> Enabled(s, PushTask(t)))
      && (t in s.tokens ==> Enabled(s, StartCancel(t)))
  {
    RunInv(run);
    var s := Exec(run).value;
    assert BaseSync(s);
    if t in s.tokens {
      HolderKnown(s, t, Token);
    }
  }

  // ----- states and drops

  /** Over a run the state of a task only moves forward. */
  lemma {:induction false} StatesMoveForward(run: seq<Action>, i: nat)
    requires Exec(run).Some? && i <= |run|
    ensures Exec(run[..i]).Some? && Forward(Exec(run[..i]).value, Exec(run).value)
  {
    hide Step, Enabled;
    if i == |run| {
      assert run[..i] == run;
    } else {
      var front := run[..|run| - 1];
      assert run[..i] == front[..i];
      StatesMoveForward(front, i);
      StepForward(Exec(front).value, run[|run| - 1]);
    }
  }

  /** A future is dropped exactly once, when its task stops running, and is only driven before that. */
  lemma DroppedExactlyOnce(run: seq<Action>, t: TaskId)
    requires Exec(run).Some? && t in Exec(run).value.tasks
    ensures var s := Exec(run).value;
            && s.tasks[t].dropped == (if s.tasks[t].done.Running? then 0 else 1)
            && (s.base == Driving(t) ==> s.tasks[t].dropped == 0)
  {
    RunInv(run);
    assert TaskAt(Exec(run).value, t);
  }

  /** The list holds exactly the tasks that were not removed, and `len` is its length between pushes. */
  lemma ListIsTheRemainingTasks(run: seq<Action>, t: TaskId)
    requires Exec(run).Some?
    ensures var s := Exec(run).value;
            && (t in s.all <==> t in s.tasks && (!s.tasks[t].done.Done? || RemovingTask(s.base) == Some(t)))
            && (!Counting(s) ==> s.len == |s.all|)
  {
    RunInv(run);
    assert TaskAt(Exec(run).value, t);
  }
}
