/**
 Counts that are never given back: what is forgotten stays forgotten, and exactly when an entry can still
 come to lie in the queue of a scheduler that was dropped.
 */
module SchedularLeak {
  import opened Wrappers
  import opened Schedular
  import opened SchedularPlaces
  import opened SchedularInv
  import opened SchedularHolders
  import opened SchedularTasks
  import opened SchedularSafety
  import opened SchedularWake
  import opened SchedularRuns
  import opened SchedularEnd
  import T = SchedularTurns
  import Q = Queue
  import W = AtomicWaker

  // ----- a queue that has gone stays gone

  lemma GoneStays(s: Sys, a: Action)
    requires Enabled(s, a) && QueueGone(s)
    ensures QueueGone(Step(s, a))
  {
    if a.OpStep? {
      GoneOp(s, a.u);
    } else {
      GoneOther(s, a);
    }
  }

  /** The operation holds the queue. */
  predicate Holding(op: Op) {
    op.kind != New && (op.Signal? || op.Waking? || op.Store? || op.Push?)
  }

  lemma GoneIff(s: Sys)
    ensures QueueGone(s) <==> !s.alive && forall u :: u in s.ops ==> !Holding(s.ops[u])
  {
  }

  lemma GoneOp(s: Sys, u: Tid)
    requires OpEnabled(s, u) && QueueGone(s)
    ensures QueueGone(OpEffect(s, u))
  {
    var s' := OpEffect(s, u);
    GoneIff(s);
    GoneIff(s');
    T.OpElsewhere(s, u);
    NotHoldingAfter(s, u);
    hide OpEffect, OpEnabled, QueueGone, T.Elsewhere;
    forall v | v in s'.ops
      ensures !Holding(s'.ops[v])
    {
      if v != u {
        Others(s.ops, s'.ops, u, v);
      }
    }
  }

  lemma NotHoldingAfter(s: Sys, u: Tid)
    requires OpEnabled(s, u) && QueueGone(s) && !Holding(s.ops[u])
    ensures u in OpEffect(s, u).ops ==> !Holding(OpEffect(s, u).ops[u])
  {
    if s.ops[u].kind == New {
      OpKeepsKind(s, u);
      hide OpEffect;
    } else {
      PlainNotHolding(s, u);
    }
  }

  lemma PlainNotHolding(s: Sys, u: Tid)
    requires OpEnabled(s, u) && QueueGone(s) && (s.ops[u].TryQueue? || s.ops[u].Upgrade? || s.ops[u].Release?)
    ensures u in OpEffect(s, u).ops ==> !Holding(OpEffect(s, u).ops[u])
  {
    assert !QueueHeld(s);
    hide QueueHeld;
  }

  lemma GoneOther(s: Sys, a: Action)
    requires Enabled(s, a) && QueueGone(s) && !a.OpStep?
    ensures QueueGone(Step(s, a))
  {
    if ChangesOps(a) {
      StartShape(s, a);
      StartAlive(s, a);
      hide Step;
    } else {
      OtherOpsSame(s, a);
      hide Step;
    }
  }

  lemma StartAlive(s: Sys, a: Action)
    requires Enabled(s, a) && ChangesOps(a)
    ensures Step(s, a).alive == s.alive
  {
    hide Q.Step, W.Step;
  }

  lemma OtherOpsSame(s: Sys, a: Action)
    requires Enabled(s, a) && !a.OpStep? && !ChangesOps(a)
    ensures Step(s, a).ops == s.ops && (Step(s, a).alive ==> s.alive)
  {
    OtherOps(s, a);
    if a.PopStep? {
      PopShape(s, a.qa);
    }
    hide Q.Step, Q.Enabled, W.Step, W.Enabled, PopEffect;
  }

  // ----- what is forgotten stays forgotten

  lemma {:induction false} SameSet(a: set<Holder>, b: set<Holder>)
    requires a <= b && |a| == |b|
    ensures a == b
  {
    assert |b - a| == |b| - |a|;
  }

  /** Neither an entry of a queue that has gone nor a count left behind is ever taken away. */
  lemma LeftBehindStays(s: Sys, a: Action, t: TaskId)
    requires Inv(s) && Enabled(s, a)
    ensures t in s.leaked ==> t in Step(s, a).leaked
    ensures Stranded(s, t) ==> Stranded(Step(s, a), t)
  {
    LeakedGrows(s, a);
    if Stranded(s, t) {
      GoneStays(s, a);
      DeadIsOut(s);
      EntryStays(s, a, t);
    }
  }

  lemma DeadIsOut(s: Sys)
    requires Inv(s) && QueueGone(s)
    ensures s.base.Out?
  {
    assert TaskOk(s);
  }

  lemma LeakedGrows(s: Sys, a: Action)
    requires Enabled(s, a)
    ensures s.leaked <= Step(s, a).leaked
  {
    if a.OpStep? {
      T.OpElsewhere(s, a.u);
      hide OpEffect;
    } else if a.PopStep? {
      PopShape(s, a.qa);
      hide PopEffect, Q.Step, Q.Enabled;
    } else {
      hide Q.Step, Q.Enabled, W.Step, W.Enabled, PopEffect;
    }
  }

  lemma EntryStays(s: Sys, a: Action, t: TaskId)
    requires Inv(s) && Enabled(s, a) && s.base.Out? && InChain(s.q, Q.Item(t))
    ensures InChain(Step(s, a).q, Q.Item(t))
  {
    assert Q.Inv(s.q);
    hide Inv;
    if a.OpStep? {
      OpQueue(s, a.u);
      if Step(s, a).q != s.q {
        ChainStep(s.q, OpQueueAction(s, a.u));
      }
      hide OpEffect, Q.Step, InChain;
    } else {
      SameQueue(s, a);
      hide Step;
    }
  }

  /** The step of the queue that an operation takes, if it takes one. */
  function OpQueueAction(s: Sys, u: Tid): Q.Action
    requires u in s.ops
  {
    if s.ops[u].Store? then Q.Store(u, s.ops[u].task) else PushAction(s, u)
  }

  lemma OpQueue(s: Sys, u: Tid)
    requires OpEnabled(s, u)
    ensures var s' := OpEffect(s, u); var qa := OpQueueAction(s, u);
      s'.q == s.q || (Q.Enabled(s.q, qa) && !IsPopAction(qa) && s'.q == Q.Step(s.q, qa))
  {
    var op := s.ops[u];
    if op.Store? {
      T.StoreShape(s, u, op.task, op.kind);
      hide StoreEffect, Q.Step, Q.Enabled;
    } else if op.Push? {
      T.PushShape(s, u);
      hide PushEffect, Q.Step, Q.Enabled;
    } else if op.Signal? || op.Waking? {
      T.WakeOpElsewhere(s, u);
      hide OpEffect;
    } else {
      T.PlainOpElsewhere(s, u);
      hide OpEffect;
    }
  }

  lemma SameQueue(s: Sys, a: Action)
    requires Enabled(s, a) && s.base.Out? && !a.OpStep?
    ensures Step(s, a).q == s.q
  {
    hide W.Step, W.Enabled, Q.Step, Q.Enabled;
  }

  /** Nothing of a forgotten task ever changes again: its record stays, and nobody comes to refer to it. */
  lemma ForgottenForEver(run: seq<Action>, a: Action, t: TaskId)
    requires Exec(run + [a]).Some?
    requires Exec(run).Some? && t in Exec(run).value.tasks && Forgotten(Exec(run).value, t)
    ensures var s, s' := Exec(run).value, Exec(run + [a]).value;
      t in s'.tasks && s'.tasks[t] == s.tasks[t] && Forgotten(s', t)
  {
    assert (run + [a])[..|run + [a]| - 1] == run;
    var s := Exec(run).value;
    var s' := Exec(run + [a]).value;
    RunInv(run);
    RunInv(run + [a]);
    assert Inv(s) && Enabled(s, a) && s' == Step(s, a);
    CountIsHolders(run, t, Leaked);
    var k := StepTouches(s, a);
    StepForward(s, a);
    assert !IsHolder(s, t, k);
    CountIsHolders(run + [a], t, Leaked);
    LeftBehindStays(s, a, t);
    hide Exec, AllInv, Inv, Step, Enabled, QueueHeld;
    StillForgotten(s, s', t);
  }

  lemma StillForgotten(s: Sys, s': Sys, t: TaskId)
    requires Forgotten(s, t) && |Holders(s', t)| == |Holders(s, t)|
    requires t in s.leaked ==> t in s'.leaked
    requires Stranded(s, t) ==> Stranded(s', t)
    ensures Forgotten(s', t)
  {
    hide QueueHeld, InChain;
    ForgottenHolders(s, t);
    HolderIff(s', t, Leaked);
    HolderIff(s', t, Entry);
    SameSet(Holders(s, t), Holders(s', t));
    hide Holders;
    forall h: Holder | IsHolder(s', t, h)
      ensures h.Leaked? || (h.Entry? && QueueGone(s'))
    {
      HolderIff(s', t, h);
    }
  }

  // ----- entries after the scheduler was dropped

  /** After the drop the consumer can only release counts. */
  ghost predicate DeadOk(s: Sys) {
    !s.alive ==> s.frames == [] && (CONSUMER in s.ops ==> s.ops[CONSUMER].Release?)
  }

  lemma DeadStep(s: Sys, a: Action)
    requires Inv(s) && DeadOk(s) && Enabled(s, a)
    ensures DeadOk(Step(s, a))
  {
    if a.OpStep? {
      T.OpElsewhere(s, a.u);
      if a.u != CONSUMER {
        Others(s.ops, Step(s, a).ops, a.u, CONSUMER);
      } else {
        ReleaseEnds(s, a.u);
      }
      hide Inv, OpEffect, OpEnabled;
    } else if ChangesOps(a) {
      StartShape(s, a);
      StartAlive(s, a);
      if a.StartCancel? && !s.alive {
        AllDoneWhenDead(s, a.task);
      }
      hide Inv, Step;
    } else {
      OtherOpsSame(s, a);
      OtherFrames(s, a);
      hide Inv, Step, Enabled;
    }
  }

  lemma ReleaseEnds(s: Sys, u: Tid)
    requires OpEnabled(s, u)
    ensures s.ops[u].Release? ==> u !in OpEffect(s, u).ops
  {
    hide Q.Step, Q.Enabled, W.Step, W.Enabled, QueueHeld, WakeAction, PushAction;
  }

  lemma AllDoneWhenDead(s: Sys, t: TaskId)
    requires Inv(s) && !s.alive && t in s.tasks
    ensures s.tasks[t].done.Done? && s.tasks[t].queued
  {
    assert TaskAt(s, t) && ListOk(s) && PlacesOk(s);
  }

  lemma OtherFrames(s: Sys, a: Action)
    requires Enabled(s, a) && !a.OpStep? && !ChangesOps(a)
    ensures Step(s, a).frames == s.frames
    ensures s.alive && !Step(s, a).alive ==> CONSUMER !in s.ops && s.frames == []
  {
    if a.PopStep? {
      PopShape(s, a.qa);
      hide PopEffect, Q.Step, Q.Enabled;
    } else {
      hide Q.Step, Q.Enabled, W.Step, W.Enabled, PopEffect;
    }
  }

  lemma {:induction false} RunDeadOk(run: seq<Action>)
    requires Exec(run).Some?
    ensures DeadOk(Exec(run).value)
  {
    if run != [] {
      var front, a := run[..|run| - 1], run[|run| - 1];
      RunDeadOk(front);
      RunInv(front);
      assert Exec(run).value == Step(Exec(front).value, a) && Enabled(Exec(front).value, a) && Inv(Exec(front).value);
      hide Exec, AllInv, Inv, Step, Enabled, DeadOk;
      DeadStep(Exec(front).value, a);
    }
  }

  /** The operation will put its task into the queue: it holds the entry and can still reach the queue. */
  ghost predicate Brewing(s: Sys, u: Tid) {
    && u in s.ops
    && match s.ops[u]
       case Store(_, _) => true
       case Push(_, _) => u in s.q.producers && s.q.producers[u].Cleared?
       case Upgrade(_, _) => QueueHeld(s)
       case _ => false
  }

  /** No entry is in the queue, and none can come. */
  ghost predicate Drained(s: Sys) {
    !HasEntry(s) && forall u :: !Brewing(s, u)
  }

  lemma DrainedOp(s: Sys, u: Tid)
    requires Inv(s) && DeadOk(s) && !s.alive && OpEnabled(s, u) && !Brewing(s, u)
    ensures !Brewing(OpEffect(s, u), u)
  {
    var op := s.ops[u];
    assert SyncAt(s, u);
    if op.TryQueue? {
      AllDoneWhenDead(s, op.task);
      hide Inv;
    } else if op.Signal? || op.Waking? {
      hide Inv;
      WakeNotBrewing(s, u);
    } else if op.Push? {
      QueuePlaces(s.q, PushAction(s, u));
      hide Inv, Q.Step, Q.Enabled;
    } else {
      hide Inv;
    }
  }

  lemma WakeNotBrewing(s: Sys, u: Tid)
    requires OpEnabled(s, u) && (s.ops[u].Signal? || s.ops[u].Waking?) && s.ops[u].kind == Wake
    ensures !Brewing(OpEffect(s, u), u)
  {
    hide Q.Step, Q.Enabled, W.Step, W.Enabled, WakeAction, QueueHeld;
  }

  lemma DrainedStep(s: Sys, a: Action)
    requires Inv(s) && DeadOk(s) && !s.alive && Enabled(s, a) && Drained(s)
    ensures Drained(Step(s, a)) && !Step(s, a).alive
  {
    DeadStays(s, a);
    DrainedQueue(s, a);
    forall v
      ensures !Brewing(Step(s, a), v)
    {
      DrainedThread(s, a, v);
    }
  }

  lemma DeadStays(s: Sys, a: Action)
    requires Enabled(s, a) && !s.alive
    ensures !Step(s, a).alive
  {
    if a.OpStep? {
      T.OpElsewhere(s, a.u);
      hide OpEffect;
    } else if ChangesOps(a) {
      StartAlive(s, a);
      hide Step;
    } else {
      OtherOpsSame(s, a);
      hide Step;
    }
  }

  lemma DrainedQueue(s: Sys, a: Action)
    requires Inv(s) && !s.alive && Enabled(s, a) && Drained(s)
    ensures !HasEntry(Step(s, a))
  {
    assert Q.Inv(s.q) && s.base.Out?;
    hide Inv, HasEntry;
    if a.OpStep? {
      assert !Brewing(s, a.u);
      DrainedOpQueue(s, a.u);
    } else {
      SameQueue(s, a);
      hide Step;
      SameEntry(s, Step(s, a));
    }
  }

  lemma DrainedOpQueue(s: Sys, u: Tid)
    requires Q.Inv(s.q) && OpEnabled(s, u) && !HasEntry(s) && !Brewing(s, u)
    ensures !HasEntry(OpEffect(s, u))
  {
    hide HasEntry, Q.Inv;
    var op := s.ops[u];
    if op.Push? {
      T.PushShape(s, u);
      assert OpEffect(s, u) == PushEffect(s, u) && PushAction(s, u) == Q.Link(u);
      hide OpEffect, OpEnabled, PushEffect, Q.Step, Q.Enabled, PushAction;
      NoNewEntry(s, PushEffect(s, u), Q.Link(u));
    } else {
      if op.Signal? || op.Waking? {
        T.WakeOpElsewhere(s, u);
      } else {
        T.PlainOpElsewhere(s, u);
      }
      hide OpEffect, OpEnabled;
      SameEntry(s, OpEffect(s, u));
    }
  }

  lemma DrainedThread(s: Sys, a: Action, v: Tid)
    requires Inv(s) && DeadOk(s) && !s.alive && Enabled(s, a) && Drained(s)
    ensures !Brewing(Step(s, a), v)
  {
    assert !Brewing(s, v);
    if QueueGone(s) {
      GoneStays(s, a);
    }
    if a.OpStep? && a.u == v {
      DrainedOp(s, v);
    } else if a.OpStep? {
      T.OpElsewhere(s, a.u);
      Others(s.ops, Step(s, a).ops, a.u, v);
      Others(s.q.producers, Step(s, a).q.producers, a.u, v);
      hide Inv, OpEffect, OpEnabled, QueueHeld;
    } else if ChangesOps(a) {
      StartShape(s, a);
      if a.StartCancel? {
        AllDoneWhenDead(s, a.task);
      }
      hide Inv, Step, QueueHeld;
    } else {
      OtherOpsSame(s, a);
      assert s.base.Out?;
      SameQueue(s, a);
      hide Inv, Step, Enabled, QueueHeld;
    }
  }

  /** The run goes on with these steps. */
  ghost predicate Continues(run: seq<Action>, more: seq<Action>) {
    Exec(run + more).Some?
  }

  lemma {:induction false} DrainedForEver(run: seq<Action>, more: seq<Action>)
    requires Exec(run).Some? && !Exec(run).value.alive && Drained(Exec(run).value) && Continues(run, more)
    ensures Drained(Exec(run + more).value) && !Exec(run + more).value.alive
    decreases |more|
  {
    if more == [] {
      assert run + more == run;
    } else {
      var front, a := more[..|more| - 1], more[|more| - 1];
      var all := run + more;
      assert all[..|all| - 1] == run + front && all[|all| - 1] == a;
      DrainedForEver(run, front);
      var s := Exec(run + front).value;
      RunInv(run + front);
      RunDeadOk(run + front);
      assert Inv(s) && Enabled(s, a) && Exec(all).value == Step(s, a);
      hide Exec, AllInv, Inv, Step, Enabled, Drained, DeadOk;
      DrainedStep(s, a);
    }
  }

  /** One step of the operation of `u`, after a run. */
  lemma OneMore(run: seq<Action>, u: Tid)
    requires Exec(run).Some? && u in Exec(run).value.ops
    ensures OpEnabled(Exec(run).value, u)
    ensures Exec(run + [OpStep(u)]) == Some(OpEffect(Exec(run).value, u))
  {
    NoOperationIsStuck(run, u);
    assert (run + [OpStep(u)])[..|run + [OpStep(u)]| - 1] == run;
  }

  /** How far the entry of such an operation is from the queue. */
  ghost predicate BrewingAt(s: Sys, u: Tid, n: nat) {
    Brewing(s, u) && n == if s.ops[u].Upgrade? then 2 else if s.ops[u].Store? then 1 else 0
  }

  lemma BrewStep(run: seq<Action>, u: Tid, n: nat)
    requires Exec(run).Some? && !Exec(run).value.alive && BrewingAt(Exec(run).value, u, n)
    ensures var after := Exec(run + [OpStep(u)]);
      after.Some? && !after.value.alive && if n == 0 then HasEntry(after.value) else BrewingAt(after.value, u, n - 1)
  {
    var s := Exec(run).value;
    OneMore(run, u);
    RunDeadOk(run);
    RunInv(run);
    hide Exec, AllInv, DeadOk;
    OneMoreStaysDead(s, u);
    hide OpEffect, OpEnabled, HasEntry;
    if n == 0 {
      SwapArrives(s, u);
    } else {
      BrewsOn(s, u);
    }
  }

  /** Three more steps of such an operation, at most, put its entry into the queue. */
  lemma {:induction false} BrewingArrives(run: seq<Action>, u: Tid, n: nat) returns (more: seq<Action>)
    requires Exec(run).Some? && !Exec(run).value.alive && BrewingAt(Exec(run).value, u, n)
    ensures Continues(run, more) && HasEntry(Exec(run + more).value)
    decreases n
  {
    hide Exec, BrewingAt, HasEntry;
    BrewStep(run, u, n);
    more := [OpStep(u)];
    if n > 0 {
      var rest := BrewingArrives(run + [OpStep(u)], u, n - 1);
      Regroup(run, OpStep(u), rest);
      more := [OpStep(u)] + rest;
    }
  }

  lemma Regroup(run: seq<Action>, a: Action, rest: seq<Action>)
    ensures run + [a] + rest == run + ([a] + rest)
  {
  }

  lemma OneMoreStaysDead(s: Sys, u: Tid)
    requires OpEnabled(s, u) && !s.alive
    ensures !OpEffect(s, u).alive
  {
    T.OpElsewhere(s, u);
    hide OpEffect;
  }

  lemma SwapArrives(s: Sys, u: Tid)
    requires AllInv(s) && OpEnabled(s, u) && s.ops[u].Push? && Brewing(s, u)
    ensures HasEntry(OpEffect(s, u))
  {
    var t := s.ops[u].task;
    assert SyncAt(s, u) && Q.Inv(s.q);
    T.PushShape(s, u);
    assert OpEffect(s, u) == PushEffect(s, u);
    hide AllInv, PushEffect, OpEffect, Q.Step;
    ChainStep(s.q, Q.Swap(u));
    assert InChain(OpEffect(s, u).q, Q.Item(t));
  }

  lemma BrewsOn(s: Sys, u: Tid)
    requires AllInv(s) && DeadOk(s) && !s.alive && OpEnabled(s, u) && !s.ops[u].Push? && Brewing(s, u)
    ensures var s' := OpEffect(s, u);
      u in s'.ops && Brewing(s', u) && (if s.ops[u].Upgrade? then s'.ops[u].Store? else s'.ops[u].Push?)
  {
    var op := s.ops[u];
    assert SyncAt(s, u);
    hide AllInv;
    if op.Store? {
      QueuePlaces(s.q, Q.Store(u, op.task));
      hide Q.Step, Q.Enabled;
    } else {
      hide QueueHeld;
    }
  }

  /**
   Once the scheduler is dropped, an entry is in its queue or can still come to be there if and only if
   one is there now or some waker under way will push: it is past its upgrade and before its head swap,
   or before its upgrade while another such operation holds the queue.
   */
  lemma EntryAfterDropExactly(run: seq<Action>)
    requires Exec(run).Some? && !Exec(run).value.alive
    ensures var s := Exec(run).value;
      (exists more :: Continues(run, more) && HasEntry(Exec(run + more).value)) <==> HasEntry(s) || exists u :: Brewing(s, u)
  {
    var s := Exec(run).value;
    assert forall u :: Brewing(s, u) ==> BrewingAt(s, u, 0) || BrewingAt(s, u, 1) || BrewingAt(s, u, 2);
    assert forall u, n: nat :: BrewingAt(s, u, n) ==> Brewing(s, u);
    hide Exec, HasEntry, Brewing, BrewingAt;
    assert run + [] == run;
    if HasEntry(s) {
      assert Continues(run, []) && HasEntry(Exec(run + []).value);
    } else if u: Tid, n: nat :| BrewingAt(s, u, n) {
      var more := BrewingArrives(run, u, n);
    } else {
      forall more | Continues(run, more)
        ensures !HasEntry(Exec(run + more).value)
      {
        DrainedForEver(run, more);
      }
    }
  }

  /**
   Dropped with an empty queue and no operation under way, as a caller can see to, a scheduler never has
   an entry again, so no count is stranded.
   */
  lemma QuietDropStrandsNothing(run: seq<Action>, more: seq<Action>, t: TaskId)
    requires Exec(run).Some? && !HasEntry(Exec(run).value) && Exec(run).value.ops == map[]
    requires Continues(run + [DropSchedular], more)
    ensures !Stranded(Exec(run + [DropSchedular] + more).value, t)
  {
    var dropped := run + [DropSchedular];
    Prefix(dropped, more);
    assert dropped[..|dropped| - 1] == run;
    DrainedForEver(dropped, more);
    hide Exec, QueueHeld;
  }

  lemma {:induction false} Prefix(run: seq<Action>, more: seq<Action>)
    requires Exec(run + more).Some?
    ensures Exec(run).Some?
    decreases |more|
  {
    if more == [] {
      assert run + more == run;
    } else {
      var all := run + more;
      assert all[..|all| - 1] == run + more[..|more| - 1];
      Prefix(run, more[..|more| - 1]);
    }
  }
}
