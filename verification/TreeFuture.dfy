/** A run inside a scope of the tree runtime: a future with a stack of its own, driven by its polls. */
module TreeFuture {
  import opened Programs
  import opened Flattened
  import opened Wrappers
  import opened Stack
  import opened Runner

  datatype ScopePoll<V> = ScopePending | ScopeReady(v: V)

  class ScopeStkFuture<S(!new), V(!new)> {
    const stack: Stack<S, V>
    ghost const root: S
    ghost var polls: nat  // of tasks on the stack

    ghost predicate Running()
      reads this, stack, stack.allocator
    {
      && stack.Busy()
      && stack.Machine() == Run(stack.code, Begin([], Fresh(root)), polls)
      && (polls > 0 ==> Run(stack.code, Begin([], Fresh(root)), polls - 1).frames != [])
    }

    constructor (stack: Stack<S, V>, s: S)
      requires stack.Idle()
      modifies stack, stack.allocator
      ensures Running() && polls == 0 && root == s && this.stack == stack
    {
      this.stack, root, polls := stack, s, 0;
      stack.EnterFuture(s);
    }

    /** One round of the loop: the result, or one poll of the newest task, which may be pending. */
    method Round() returns (r: Option<V>, pending: bool)
      requires Running()
      modifies this`polls, stack, stack.allocator
      ensures pending <==> old(stack.Machine()).frames != [] && stack.code(Top(old(stack.Machine())).About()).Wait?
      ensures r.Some? <==> old(stack.Machine()).frames == []
      ensures r.Some? ==> r == old(stack.Machine()).result && stack.Idle() && polls == old(polls)
      ensures r.None? ==> Running() && polls == old(polls) + 1
    {
      hide stack.Busy, stack.Idle, Coherent, Drive, Run;
      stack.BusyShape();
      r := stack.TryGetResult();
      if r.Some? {
        return r, false;
      }
      RunOnce(stack.code, Begin([], Fresh(root)), polls);
      var p := stack.DriveTopTask();
      polls := polls + 1;
      assert p != Ready(true);
      pending := p == Pending;
    }

    /**
     One poll. If the parent stack is about to yield, it wakes its own waker and comes back at once, and
     nothing else has changed. Otherwise it drives the recursion up to its next wait, and is pending then;
     if there is none, it is ready with the value.
     */
    method Poll(parent: StackState, ghost t: Tree<S, V>) returns (r: ScopePoll<V>, woke: bool)
      requires Running() && t.Unfolds(stack.code) && t.s == root
      modifies this`polls, stack, stack.allocator
      ensures woke == (parent == Yield)
      ensures parent == Yield ==> r == ScopePending && Running() && polls == old(polls)
      ensures parent != Yield ==> UpToNextWait(stack.code, t.Visits(1), old(polls), polls, r == ScopePending)
      ensures r == ScopePending ==> Running()
      ensures r != ScopePending ==> r == ScopeReady(t.Value()) && stack.Idle()
    {
      hide stack.Busy, stack.Idle, stack.Allocated, Coherent, Drive, Run, Begin, SlotsOk;
      if parent == Yield {
        return ScopePending, true;
      }
      woke := false;
      WhereItIs(t);
      while true
        invariant Running() && old(polls) <= polls <= |t.Visits(1)|
        invariant NoWaitIn(stack.code, t.Visits(1), old(polls), polls)
        decreases |t.Visits(1)| - polls
      {
        WhereItIs(t);
        var x, pending := Round();
        if x.Some? {
          return ScopeReady(x.value), false;
        }
        if pending {
          return ScopePending, false;
        }
      }
    }

    /** The polls so far, and the visit that comes next. */
    lemma WhereItIs(t: Tree<S, V>)
      requires Running() && t.Unfolds(stack.code) && t.s == root
      ensures SlotsOk(stack.slots) && polls <= |t.Visits(1)| && Coherent(stack.Machine())
      ensures stack.Machine().frames == [] <==> polls == |t.Visits(1)|
      ensures stack.Machine().frames == [] ==> stack.Machine().result == Some(t.Value())
      ensures stack.Machine().frames != [] ==> |stack.slots| > 1
      ensures polls < |t.Visits(1)| ==> Top(stack.Machine()).About() == t.Visits(1)[polls].s
    {
      stack.BusyShape();
      hide stack.Busy, Drive, Run;
      VisitsOfTasks(t, 1);
      PollsOfTasks(stack.code, t, polls);
      if polls > 0 {
        PollsOfTasks(stack.code, t, polls - 1);
      }
    }
  }
}
