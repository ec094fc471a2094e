/**
 The turns of the tree runtime over whole runs: that a drive comes to the root, what the root finds when
 it is driven again, whose a scope is, and how the frames of the root stack come and go.
 */
module TreeTurns {
  import opened Wrappers
  import opened Schedular
  import opened SchedularWake
  import opened SchedularRuns
  import opened TreeRuntime
  import SchedularEnd

  /** The runtime after the first `k` steps of the run. */
  ghost function At(run: seq<TreeAction>, k: nat): Tree
    requires ExecTree(run).Some? && k <= |run|
  {
    if k == |run| then ExecTree(run).value else At(run[..|run| - 1], k)
  }

  lemma {:induction false} AtIsPrefix(run: seq<TreeAction>, k: nat)
    requires ExecTree(run).Some? && k <= |run|
    ensures ExecTree(run[..k]) == Some(At(run, k))
  {
    if k == |run| {
      assert run[..k] == run;
    } else {
      assert run[..k] == run[..|run| - 1][..k];
      AtIsPrefix(run[..|run| - 1], k);
    }
  }

  /** Step `k` of the run leads from one state to the next. */
  lemma StepAt(run: seq<TreeAction>, k: nat)
    requires ExecTree(run).Some? && k < |run|
    ensures TreeInv(At(run, k)) && CanStep(At(run, k), run[k])
    ensures At(run, k + 1) == StepTree(At(run, k), run[k]) && TreeInv(At(run, k + 1))
  {
    AtIsPrefix(run, k);
    AtIsPrefix(run, k + 1);
    hide ExecTree, TreeInv, CanStep, StepTree, At;
    assert run[..k + 1][..k] == run[..k];
    LastStep(run[..k + 1]);
  }

  // ----- a drive comes to the root

  /** A poll ended with Pending, and either a task is left or the parent has been called. */
  predicate PollPended(s: Sys, s': Sys) {
    InPoll(s.base) && s'.base.Out? && s'.hist.pending && (s'.all != {} || s'.w.woken)
  }

  lemma PollingMoves(r: Tree, b: TreeAction)
    requires TreeInv(r) && CanStep(r, b) && r.driver.Polling?
    ensures var r' := StepTree(r, b);
      r'.driver.Polling? || r'.driver.Root? || (r'.driver.Resting? && PollPended(r.sys, r'.sys))
  {
    assert b.Work?;
    SchedularEnd.PendingStep(r.sys, b.a);
    hide Step, Enabled, AllInv, ScopesOk, MayWork;
  }

  lemma {:induction false} PollingLeads(run: seq<TreeAction>, m: nat, j: nat)
    requires ExecTree(run).Some? && m <= j <= |run| && At(run, m).driver.Polling? && At(run, j).driver.Resting?
    requires forall k :: m <= k < j ==> !At(run, k).driver.Resting?
    ensures (exists k :: m < k < j && At(run, k).driver.Root?) || PollPended(At(run, j - 1).sys, At(run, j).sys)
    decreases j - m
  {
    hide ExecTree, At, TreeInv, CanStep, StepTree, PollPended;
    StepAt(run, m);
    PollingMoves(At(run, m), run[m]);
    if At(run, m + 1).driver.Polling? {
      PollingLeads(run, m + 1, j);
    }
  }

  lemma DriveMoves(r: Tree, b: TreeAction)
    requires CanStep(r, b) && b.Drive?
    ensures StepTree(r, b).driver.Root? || StepTree(r, b).driver.Polling?
  {
    hide Step, Enabled;
  }

  /**
   No drive is lost: between a drive and the next rest of the driver the root was driven, or the poll of
   the scheduler ended with Pending, and then some task is left or the parent has been called.
   */
  lemma DriveGivesTheTurn(run: seq<TreeAction>, i: nat, j: nat)
    requires ExecTree(run).Some? && i < j <= |run| && run[i].Drive? && At(run, j).driver.Resting?
    requires forall k :: i < k < j ==> !At(run, k).driver.Resting?
    ensures (exists k :: i < k < j && At(run, k).driver.Root?) || PollPended(At(run, j - 1).sys, At(run, j).sys)
  {
    hide ExecTree, At, TreeInv, CanStep, StepTree, PollPended;
    StepAt(run, i);
    DriveMoves(At(run, i), run[i]);
    assert At(run, i + 1).driver.Root? ==> i + 1 < j;
    if At(run, i + 1).driver.Polling? {
      PollingLeads(run, i + 1, j);
    }
  }

  // ----- what a step adds and what it leaves

  /** Tasks, owners and results stay, and a scope is given up once. */
  ghost predicate Grown(r: Tree, r': Tree, t: TaskId) {
    t in r.sys.tasks ==>
      && t in r'.sys.tasks
      && (t in r'.sys.tokens ==> t in r.sys.tokens)
      && (t in r.filled ==> t in r'.filled)
      && (t in r.owners ==> t in r'.owners && r'.owners[t] == r.owners[t])
  }

  lemma WorkGrows(r: Tree, a: Action, t: TaskId)
    requires CanStep(r, Work(a))
    ensures Grown(r, StepTree(r, Work(a)), t)
  {
    StatesMove(r.sys, a);
    hide Step, Enabled, MayWork, AfterWork, OwnerOf;
  }

  lemma StepGrows(r: Tree, b: TreeAction, t: TaskId)
    requires TreeInv(r) && CanStep(r, b)
    ensures Grown(r, StepTree(r, b), t)
  {
    match b
    case Work(a) => WorkGrows(r, a, t);
    case Drive(waker) =>
      if r.sys.all != {} {
        StartKeepsAlive(r.sys, StartPoll(waker));
      }
      hide AllInv, ScopesOk, Step, Enabled;
    case DropRunner =>
      StartKeepsAlive(r.sys, StartClear);
      hide AllInv, ScopesOk, Step, Enabled;
    case Call =>
    case Finish =>
    case Return =>
  }

  // ----- what the root finds

  lemma RootBegins(r: Tree, b: TreeAction)
    requires TreeInv(r) && CanStep(r, b) && TreeInv(StepTree(r, b))
    requires !r.driver.Root? && StepTree(r, b).driver.Root?
    ensures forall t :: t in StepTree(r, b).sys.tokens ==> t in StepTree(r, b).filled
  {
    RootFindsNone(r, b);
    hide AllInv, ScopesOk, Step, Enabled, CanStep, StepTree;
    EmptyMeansFilled(StepTree(r, b));
  }

  /** The scope has given its result, or nobody waits for it any more. */
  ghost predicate Served(r: Tree, t: TaskId) {
    t in r.sys.tasks && (t in r.sys.tokens ==> t in r.filled)
  }

  lemma {:induction false} StaysServed(run: seq<TreeAction>, i: nat, j: nat, t: TaskId)
    requires ExecTree(run).Some? && i <= j <= |run| && Served(At(run, i), t)
    ensures Served(At(run, j), t)
    decreases j
  {
    hide ExecTree, At, TreeInv, CanStep, StepTree, Served;
    if i < j {
      StaysServed(run, i, j - 1, t);
      StepAt(run, j - 1);
      ServedStays(At(run, j - 1), run[j - 1], t);
    }
  }

  lemma ServedStays(r: Tree, b: TreeAction, t: TaskId)
    requires TreeInv(r) && CanStep(r, b) && Served(r, t)
    ensures Served(StepTree(r, b), t)
  {
    hide TreeInv, CanStep, StepTree;
    StepGrows(r, b, t);
  }

  /**
   A task of the root that is driven again finds the result of the scope it awaits: at any time after a
   drive of the root began, every living scope that was there at its beginning has its place filled.
   */
  lemma ScopeFindsItsResult(run: seq<TreeAction>, i: nat, j: nat, t: TaskId)
    requires ExecTree(run).Some? && 0 < i <= j <= |run|
    requires !At(run, i - 1).driver.Root? && At(run, i).driver.Root?
    requires t in At(run, i).sys.tasks && t in At(run, j).sys.tokens
    ensures t in At(run, j).filled
  {
    hide ExecTree, At, TreeInv, CanStep, StepTree;
    StepAt(run, i - 1);
    RootBegins(At(run, i - 1), run[i - 1]);
    StaysServed(run, i, j, t);
  }

  // ----- whose a scope is

  /** The code that runs is that of a driven task, or else of the task on top of the root stack. */
  ghost predicate RunsNow(r: Tree, o: Owner) {
    if r.sys.base.Driving? then o == InTask(r.sys.base.task)
    else r.frames != [] && o == InFrame(r.frames[|r.frames| - 1])
  }

  ghost predicate OwnedBy(r: Tree, t: TaskId, o: Owner) {
    t in r.sys.tasks && t in r.owners && r.owners[t] == o
  }

  lemma NewScope(r: Tree, t: TaskId) returns (o: Owner)
    requires TreeInv(r) && CanStep(r, Work(PushTask(t)))
    ensures RunsNow(r, o) && OwnedBy(StepTree(r, Work(PushTask(t))), t, o) && t !in r.sys.tasks
  {
    StatesMove(r.sys, PushTask(t));
    o := OwnerOf(r);
    hide AllInv, ScopesOk, Step, AfterWork;
  }

  lemma OwnedStays(r: Tree, b: TreeAction, t: TaskId, o: Owner)
    requires TreeInv(r) && CanStep(r, b) && OwnedBy(r, t, o)
    ensures OwnedBy(StepTree(r, b), t, o)
  {
    hide TreeInv, CanStep, StepTree;
    StepGrows(r, b, t);
  }

  lemma {:induction false} OwnerRemains(run: seq<TreeAction>, i: nat, j: nat, t: TaskId, o: Owner)
    requires ExecTree(run).Some? && i <= j <= |run| && OwnedBy(At(run, i), t, o)
    ensures OwnedBy(At(run, j), t, o)
    decreases j
  {
    hide ExecTree, At, TreeInv, CanStep, StepTree, OwnedBy;
    if i < j {
      OwnerRemains(run, i, j - 1, t, o);
      StepAt(run, j - 1);
      OwnedStays(At(run, j - 1), run[j - 1], t, o);
    }
  }

  /**
   The owner of a scope's place is for ever the one that began the scope: the task that was driven then,
   or else the task on top of the root stack.
   */
  lemma OwnerIsWhoBegan(run: seq<TreeAction>, i: nat, t: TaskId)
    requires ExecTree(run).Some? && i < |run| && run[i] == Work(PushTask(t))
    ensures t in ExecTree(run).value.owners && RunsNow(At(run, i), ExecTree(run).value.owners[t])
  {
    assert At(run, |run|) == ExecTree(run).value;
    hide ExecTree, At, TreeInv, CanStep, StepTree, RunsNow;
    StepAt(run, i);
    var o := NewScope(At(run, i), t);
    OwnerRemains(run, i + 1, |run|, t, o);
  }

  // ----- the frames of the root stack

  /** The frames are of different calls, the later ones above, and a call to come is of none of them. */
  ghost predicate FramesOk(r: Tree) {
    && (forall p :: 0 <= p < |r.frames| ==> r.frames[p] < r.next)
    && (forall p, q :: 0 <= p < q < |r.frames| ==> r.frames[p] < r.frames[q])
  }

  /** A frame is put on top, or taken from the top, or none is moved. */
  ghost predicate FramesMoved(r: Tree, b: TreeAction, r': Tree) {
    && r'.next >= r.next
    && |r'.frames| == |r.frames| + (if b.Call? then 1 else 0) - (if b.Finish? then 1 else 0)
    && (forall p :: 0 <= p < |r.frames| && p < |r'.frames| ==> r'.frames[p] == r.frames[p])
    && (|r.frames| < |r'.frames| ==> r'.frames[|r.frames|] == r.next < r'.next)
  }

  lemma FramesMove(r: Tree, b: TreeAction)
    requires CanStep(r, b)
    ensures FramesMoved(r, b, StepTree(r, b))
    ensures FramesOk(r) ==> FramesOk(StepTree(r, b))
  {
    hide Step, Enabled, NoScopeIn, MayWork, AfterWork, OwnerOf;
  }

  function Count(run: seq<TreeAction>, b: TreeAction): nat {
    if run == [] then 0 else Count(run[..|run| - 1], b) + if run[|run| - 1] == b then 1 else 0
  }

  /** There are as many frames as calls that have not finished, and the root's. */
  lemma {:induction false} FramesAreOpenCalls(run: seq<TreeAction>)
    requires ExecTree(run).Some?
    ensures |ExecTree(run).value.frames| == 1 + Count(run, Call) - Count(run, Finish)
    ensures FramesOk(ExecTree(run).value)
  {
    if run != [] {
      var front, b := run[..|run| - 1], run[|run| - 1];
      FramesAreOpenCalls(front);
      FramesMove(ExecTree(front).value, b);
      hide CanStep, StepTree;
    }
  }

  /** A frame stays where it is until it is the top one that finishes. */
  lemma {:induction false} FrameStays(run: seq<TreeAction>, i: nat, j: nat, p: nat)
    requires ExecTree(run).Some? && i <= j <= |run|
    requires forall k :: i <= k <= j ==> p < |At(run, k).frames|
    ensures At(run, j).frames[p] == At(run, i).frames[p]
    decreases j
  {
    hide ExecTree, At, TreeInv, CanStep, StepTree;
    if i < j {
      FrameStays(run, i, j - 1, p);
      StepAt(run, j - 1);
      FramesMove(At(run, j - 1), run[j - 1]);
    }
  }

  /** A frame that has gone never comes back, so an owner that is no more stays so. */
  lemma {:induction false} FrameComesOnce(run: seq<TreeAction>, i: nat, j: nat, f: nat)
    requires ExecTree(run).Some? && i <= j <= |run| && f < At(run, i).next && f !in At(run, i).frames
    ensures f < At(run, j).next && f !in At(run, j).frames
    decreases j
  {
    hide ExecTree, At, TreeInv, CanStep, StepTree;
    if i < j {
      FrameComesOnce(run, i, j - 1, f);
      StepAt(run, j - 1);
      FrameIsGone(At(run, j - 1), run[j - 1], f);
    }
  }

  lemma FrameIsGone(r: Tree, b: TreeAction, f: nat)
    requires CanStep(r, b) && f < r.next && f !in r.frames
    ensures f < StepTree(r, b).next && f !in StepTree(r, b).frames
  {
    hide StepTree, CanStep;
    FramesMove(r, b);
  }
}
