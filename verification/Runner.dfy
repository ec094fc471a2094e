/** The runner of a stack: it polls the stack until the root has finished, and clears it when it goes. */
module Runner {
  import opened Wrappers
  import opened Programs
  import opened Flattened
  import opened Lifetimes
  import opened Stack

  class Runner<S(!new), V(!new)> {
    const stack: Stack<S, V>
    ghost const root: S
    ghost var polls: nat  // since the stack was entered

    /** The stack is where the flattened loop is after this many polls. */
    ghost predicate Running()
      reads this, stack, stack.allocator
    {
      && stack.Busy()
      && stack.Machine() == Run(stack.code, Begin([], Fresh(root)), polls)
      && (polls > 0 ==> Run(stack.code, Begin([], Fresh(root)), polls - 1).frames != [])
    }

    /** Enters a future on an empty stack. */
    constructor (stack: Stack<S, V>, s: S)
      requires stack.Idle()
      modifies stack, stack.allocator
      ensures Running() && polls == 0 && root == s && this.stack == stack
      ensures stack.log == old(Born(stack.log, []))
    {
      this.stack, root, polls := stack, s, 0;
      stack.EnterFuture(s);
    }

    /** The next poll would come back pending: something outside is waited for. */
    ghost predicate WouldWait()
      requires Running()
      reads this, stack, stack.allocator
    {
      stack.Machine().frames != [] && stack.code(Top(stack.Machine()).About()).Wait?
    }

    /**
     The result if the root has finished; otherwise one poll of the newest task. Not meant for tasks that
     wait for something outside.
     */
    method Step() returns (r: Option<V>)
      requires Running() && !WouldWait()
      modifies this`polls, stack, stack.allocator
      ensures r.Some? <==> old(stack.Machine()).frames == []
      ensures r.Some? ==> r == old(stack.Machine()).result && stack.Idle() && polls == old(polls)
      ensures r.None? ==> Running() && polls == old(polls) + 1
      ensures stack.results.returned == old(stack.results.returned) + if r.Some? then 1 else 0
    {
      hide stack.Busy, stack.Idle, Coherent, Drive, Run, Born, Dropped;
      var pending;
      r, pending := StepAsync();
      assert !pending;
    }

    /** One poll of the future that steps: the result, or one poll of the newest task, which may be pending. */
    method StepAsync() returns (r: Option<V>, pending: bool)
      requires Running()
      modifies this`polls, stack, stack.allocator
      ensures pending == old(WouldWait())
      ensures r.Some? <==> old(stack.Machine()).frames == []
      ensures r.Some? ==> r == old(stack.Machine()).result && stack.Idle() && polls == old(polls)
      ensures r.None? ==> Running() && polls == old(polls) + 1
      ensures stack.results.returned == old(stack.results.returned) + if r.Some? then 1 else 0
    {
      hide stack.Busy, stack.Idle, Coherent, Drive, Run, Born, Dropped;
      stack.BusyShape();
      r := stack.TryGetResult();
      if r.Some? {
        return r, false;
      }
      RunOnce(stack.code, Begin([], Fresh(root)), polls);
      var p := stack.DriveTopTask();
      polls := polls + 1;
      pending := p == Pending;
    }

    /**
     Polls until the root has finished: for a recursion that ends without waiting, with its value, after
     one poll for each task and one more for each run it makes.
     */
    method Finish(ghost t: Tree<S, V>) returns (v: V)
      requires Running() && t.Unfolds(stack.code) && t.s == root && t.Waits() == 0
      modifies this`polls, stack, stack.allocator
      ensures v == t.Value() && stack.Idle() && polls == 2 * t.Tasks() - 1
      ensures stack.results.returned == old(stack.results.returned) + 1
    {
      hide stack.Busy, stack.Idle, Coherent, Drive, Run;
      NoWaits(stack.code, t, 1);
      while true
        invariant Running() && stack.results.returned == old(stack.results.returned)
        decreases 2 * t.Tasks() - polls
      {
        WhereItIs(t);
        var x := Step();
        if x.Some? {
          v := x.value;
          Drop();
          return;
        }
      }
    }

    /** The polls so far, and the visit that comes next. */
    lemma WhereItIs(t: Tree<S, V>)
      requires Running() && t.Unfolds(stack.code) && t.s == root
      ensures SlotsOk(stack.slots) && polls <= |t.Visits(1)| == 2 * t.Tasks() - 1 + t.Waits()
      ensures stack.Machine().frames == [] <==> polls == |t.Visits(1)|
      ensures stack.Machine().frames == [] ==> stack.Machine().result == Some(t.Value())
      ensures polls < |t.Visits(1)| ==> (WouldWait() <==> stack.code(t.Visits(1)[polls].s).Wait?)
    {
      stack.BusyShape();
      hide stack.Busy, Coherent, Drive, Run;
      VisitsOfTasks(t, 1);
      PollsOfTasks(stack.code, t, polls);
      if polls > 0 {
        PollsOfTasks(stack.code, t, polls - 1);
      }
    }

    /**
     One poll of the future that finishes the stack: it drives the recursion up to its next wait, and is
     pending then; if there is none, it is ready with the value.
     */
    method FinishAsync(ghost t: Tree<S, V>) returns (r: Option<V>)
      requires Running() && t.Unfolds(stack.code) && t.s == root
      modifies this`polls, stack, stack.allocator
      ensures UpToNextWait(stack.code, t.Visits(1), old(polls), polls, r.None?)
      ensures r.None? ==> Running()
      ensures r.Some? ==> r == Some(t.Value()) && stack.Idle()
    {
      hide stack.Busy, stack.Idle, Coherent, Drive, Run;
      WhereItIs(t);
      while true
        invariant Running() && old(polls) <= polls <= |t.Visits(1)|
        invariant NoWaitIn(stack.code, t.Visits(1), old(polls), polls)
        decreases |t.Visits(1)| - polls
      {
        WhereItIs(t);
        var pending;
        r, pending := StepAsync();
        if r.Some? || pending {
          return;
        }
      }
    }

    /** The number of tasks on the stack. */
    method Depth() returns (d: nat)
      requires Running() || stack.Idle()
      ensures d == if Running() then |stack.Machine().frames| else 0
    {
      d := if stack.len == 0 then 0 else stack.len - 1;
    }

    lemma AllocatedIsEmpty()
      requires stack.Allocated() && stack.slots == []
      ensures stack.allocator.Live() == []
    {
    }

    /** Clears the stack, however far it got: every future not yet dropped is dropped now. */
    method Drop()
      requires Running() || stack.Idle()
      modifies stack, stack.allocator
      ensures stack.Idle()
      ensures stack.allocator.Live() == [] && stack.len == 0 && stack.state == Base
      ensures stack.log.parents == old(stack.log).parents && old(stack.log).drops <= stack.log.drops
      ensures stack.results.produced == old(stack.results).produced
      ensures stack.results.returned == old(stack.results).returned
    {
      hide LogOk, stack.Allocated, stack.Balanced, Run, Drive;
      stack.state := Cancelled;
      stack.Clear();
      stack.state := Base;
      AllocatedIsEmpty();
    }
  }

  /** None of these visits waits. */
  ghost predicate NoWaitIn<S, V>(code: S -> Act<S, V>, vs: seq<Visit<S>>, from: nat, to: nat)
    requires to <= |vs|
  {
    forall k :: from <= k < to ==> !code(vs[k].s).Wait?
  }

  /** From one visit up to and with the next that waits, if it is pending; else to the end, without a wait. */
  ghost predicate UpToNextWait<S, V>(code: S -> Act<S, V>, vs: seq<Visit<S>>, from: nat, to: nat, pending: bool) {
    && from <= to <= |vs|
    && (if pending then from < to && code(vs[to - 1].s).Wait? && NoWaitIn(code, vs, from, to - 1)
        else to == |vs| && NoWaitIn(code, vs, from, to))
  }
}
