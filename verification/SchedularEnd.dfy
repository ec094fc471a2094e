/**
 How polls and clears end: the parent is told, Ready means that the list is empty, a poll is bounded,
 and a clear leaves nothing behind.
 */
module SchedularEnd {
  import opened Wrappers
  import opened Schedular
  import opened SchedularPlaces
  import opened SchedularInv
  import opened SchedularHolders
  import opened SchedularTasks
  import opened SchedularSafety
  import opened SchedularWake
  import opened SchedularPoll
  import opened SchedularRuns
  import T = SchedularTurns
  import Q = Queue
  import W = AtomicWaker
  import QueueRuns

  // ----- the parent's waker

  /** The waker of the parent that a step calls, if any. */
  function CallsParent(s: Sys, a: Action): Option<W.Waker>
    requires Enabled(s, a)
  {
    match a
    case OpStep(u) => if s.ops[u].Waking? then W.Called(s.w, WakeAction(s, u)) else None
    case RegisterStep(wa) => W.Called(s.w, wa)
    case PopStep(qa) =>
      if s.base.Popping? && Q.Answered(s.q, qa) == Some(Q.Inconsistent) then s.w.current else None
    case EndDrive(ready) =>
      if !ready && EndDriveEffect(s, s.base.task, false).base == Dropping(s.base.task, true) then s.w.current else None
    case _ => None
  }

  /** Step `i` of the run is a poll that finds tasks, and registers waker `w`. */
  ghost predicate RegistersAt(run: seq<Action>, i: nat, w: W.Waker) {
    i < |run| && run[i] == StartPoll(w) && Exec(run[..i]).Some? && Exec(run[..i]).value.all != {}
  }

  /** Step `k` of the run calls the parent's waker `w`. */
  ghost predicate CallsAt(run: seq<Action>, k: nat, w: W.Waker) {
    && k < |run| && Exec(run[..k]).Some? && Enabled(Exec(run[..k]).value, run[k])
    && CallsParent(Exec(run[..k]).value, run[k]) == Some(w)
  }

  /** Step `i` registered waker `w`, and no poll registered since. */
  ghost predicate LastRegister(run: seq<Action>, i: nat, w: W.Waker) {
    RegistersAt(run, i, w) && forall j: nat, v: W.Waker :: i < j ==> !RegistersAt(run, j, v)
  }

  /** Waker `w` was registered last, and called since. */
  ghost predicate CalledSince(run: seq<Action>, i: nat, k: nat, w: W.Waker) {
    i < k && LastRegister(run, i, w) && CallsAt(run, k, w)
  }

  lemma WakerStepCalls(w: W.State, a: W.Action)
    requires W.Enabled(w, a) && !a.Begin?
    ensures W.Step(w, a).current == w.current
    ensures W.Step(w, a).woken ==> w.woken || (w.current.Some? && W.Called(w, a) == w.current)
  {
  }

  lemma PopWokenByCall(s: Sys, a: Q.Action)
    requires Enabled(s, PopStep(a))
    ensures PopEffect(s, a).w.current == s.w.current
    ensures PopEffect(s, a).w.woken && !s.w.woken ==> s.base.Popping? && Q.Answered(s.q, a) == Some(Q.Inconsistent)
  {
    hide Q.Step, Q.Enabled;
  }

  lemma OpWokenByCall(s: Sys, u: Tid)
    requires OpEnabled(s, u)
    ensures OpEffect(s, u).w.current == s.w.current
    ensures OpEffect(s, u).w.woken && !s.w.woken && s.w.current.Some? ==>
              s.ops[u].Waking? && W.Called(s.w, WakeAction(s, u)) == s.w.current
  {
    if s.ops[u].Signal? { WakerStepCalls(s.w, W.FetchOr(u)); }
    if s.ops[u].Waking? { WakerStepCalls(s.w, WakeAction(s, u)); }
    hide Q.Step, Q.Enabled, W.Step, W.Enabled, WakeAction, PushAction, QueueHeld;
  }

  /** `woken` is only ever set by a step that calls the current waker. */
  lemma WokenByCall(s: Sys, a: Action)
    requires Enabled(s, a) && !(a.StartPoll? && s.all != {})
    ensures Step(s, a).w.current == s.w.current
    ensures Step(s, a).w.woken && !s.w.woken && s.w.current.Some? ==> CallsParent(s, a) == s.w.current
  {
    match a
    case OpStep(u) => hide OpEffect, OpEnabled; OpWokenByCall(s, u);
    case RegisterStep(wa) => WakerStepCalls(s.w, wa); hide W.Step;
    case PopStep(qa) => PopWokenByCall(s, qa); hide PopEffect;
    case _ => hide Q.Step, Q.Enabled, W.Step, W.Enabled, OpEffect, PopEffect;
  }

  /** Earlier steps are the same in a longer run. */
  lemma SameBefore(run: seq<Action>, a: Action, j: nat, v: W.Waker)
    requires j < |run|
    ensures RegistersAt(run + [a], j, v) <==> RegistersAt(run, j, v)
    ensures CallsAt(run + [a], j, v) <==> CallsAt(run, j, v)
  {
    assert (run + [a])[..j] == run[..j] && (run + [a])[j] == run[j];
  }

  lemma LastRegisterStays(run: seq<Action>, a: Action, i: nat, w: W.Waker)
    requires LastRegister(run, i, w) && forall v: W.Waker :: !RegistersAt(run + [a], |run|, v)
    ensures LastRegister(run + [a], i, w)
  {
    hide RegistersAt;
    assert i < |run| by { RegisterIndex(run, i, w); }
    SameBefore(run, a, i, w);
    forall j: nat, v: W.Waker | i < j ensures !RegistersAt(run + [a], j, v) {
      if j < |run| {
        SameBefore(run, a, j, v);
      } else if j > |run| {
        RegisterIndex(run + [a], j, v);
      }
    }
  }

  lemma RegisterIndex(run: seq<Action>, i: nat, w: W.Waker)
    ensures RegistersAt(run, i, w) ==> i < |run|
  {
  }

  lemma NewRegister(run: seq<Action>, a: Action, s: Sys)
    requires Exec(run) == Some(s) && a.StartPoll? && s.all != {}
    ensures LastRegister(run + [a], |run|, a.waker)
  {
    assert (run + [a])[..|run|] == run;
    forall j: nat, v: W.Waker | |run| < j ensures !RegistersAt(run + [a], j, v) {
      RegisterIndex(run + [a], j, v);
    }
  }

  lemma NoRegister(run: seq<Action>, a: Action, s: Sys)
    requires Exec(run) == Some(s) && !(a.StartPoll? && s.all != {})
    ensures forall v: W.Waker :: !RegistersAt(run + [a], |run|, v)
  {
    assert (run + [a])[..|run|] == run;
  }

  lemma NewCall(run: seq<Action>, a: Action, s: Sys, w: W.Waker)
    requires Exec(run) == Some(s) && Enabled(s, a) && CallsParent(s, a) == Some(w)
    ensures CallsAt(run + [a], |run|, w)
  {
    assert (run + [a])[..|run|] == run;
  }

  lemma StartPollRecord(s: Sys, a: Action)
    requires Enabled(s, a) && a.StartPoll? && s.all != {}
    ensures Step(s, a).w.current == Some(a.waker) && !Step(s, a).w.woken
  {
  }

  /** What the record of the atomic waker says about the run. */
  ghost predicate RecordTold(run: seq<Action>, w: W.State) {
    w.current.Some? ==>
      && (exists i: nat :: LastRegister(run, i, w.current.value))
      && (w.woken ==> exists i: nat, k: nat :: CalledSince(run, i, k, w.current.value))
  }

  lemma RecordStep(run: seq<Action>, s: Sys, a: Action)
    requires Exec(run) == Some(s) && Enabled(s, a) && RecordTold(run, s.w)
    ensures RecordTold(run + [a], Step(s, a).w)
  {
    var s' := Step(s, a);
    var run' := run + [a];
    if a.StartPoll? && s.all != {} {
      StartPollRecord(s, a);
      NewRegister(run, a, s);
    } else {
      NoRegister(run, a, s);
      WokenByCall(s, a);
      hide Step, Enabled, RegistersAt, CallsAt, LastRegister;
      if s.w.current.Some? {
        var w := s.w.current.value;
        var i: nat :| LastRegister(run, i, w);
        LastRegisterStays(run, a, i, w);
        assert i < |run| by { LastIndex(run, i, w); }
        if s.w.woken {
          var i0: nat, k: nat :| CalledSince(run, i0, k, w);
          assert k < |run| by { CallIndex(run, k, w); }
          LastRegisterStays(run, a, i0, w);
          SameBefore(run, a, k, w);
          assert CalledSince(run', i0, k, w);
        } else if s'.w.woken {
          NewCall(run, a, s, w);
          assert CalledSince(run', i, |run|, w);
        }
      }
    }
  }

  lemma LastIndex(run: seq<Action>, i: nat, w: W.Waker)
    requires LastRegister(run, i, w)
    ensures i < |run|
  {
  }

  lemma CallIndex(run: seq<Action>, k: nat, w: W.Waker)
    requires CallsAt(run, k, w)
    ensures k < |run|
  {
  }

  lemma {:induction false} RecordOfRun(run: seq<Action>)
    requires Exec(run).Some?
    ensures RecordTold(run, Exec(run).value.w)
  {
    if run != [] {
      var front, a := run[..|run| - 1], run[|run| - 1];
      RecordOfRun(front);
      assert front + [a] == run;
      hide Step, Enabled, RecordTold;
      RecordStep(front, Exec(front).value, a);
    }
  }

  /**
   No lost wake, over runs: if the last poll answered Pending, all threads are idle, nothing was pushed
   from outside since, and some task is in the queue, then a step of the run after the one where that
   poll registered its waker called that waker.
   */
  lemma ParentIsWoken(run: seq<Action>)
    requires Exec(run).Some? && Idle(Exec(run).value)
    requires Exec(run).value.hist.pending && !Exec(run).value.hist.outside && HasEntry(Exec(run).value)
    ensures exists i: nat, k: nat, w: W.Waker :: CalledSince(run, i, k, w)
  {
    RunInv(run);
    NoLostWake(Exec(run).value);
    RecordOfRun(run);
  }

  /**
   Pushing from outside is the exception: `push_cancellable` runs to its end in four steps, leaves its
   task in the queue, and tells nobody; so the parent is woken afterwards only if it was before.
   */
  lemma PushFromOutsideIsSilent(s: Sys, t: TaskId) returns (created: Sys, stored: Sys, swapped: Sys, done: Sys)
    requires Inv(s) && Idle(s) && s.hist.pending && s.alive && t !in s.tasks
    ensures Enabled(s, PushTask(t)) && created == Step(s, PushTask(t))
    ensures PushStep(created, stored) && PushStep(stored, swapped) && PushStep(swapped, done)
    ensures Idle(done) && HasEntry(done) && done.hist.pending && done.hist.outside
    ensures done.w == s.w
  {
    created := PushCreates(s, t);
    hide Inv, Step, Enabled, HasEntry, PushStep, PushTaskEffect, InChain;
    stored := PushStores(created, t);
    swapped := PushSwaps(stored, t);
    done := PushLinks(swapped, t);
  }

  ghost predicate PushStep(s: Sys, s': Sys) {
    Enabled(s, OpStep(CONSUMER)) && s' == Step(s, OpStep(CONSUMER))
  }

  /** The step leaves the caller, the poll history and the parent's waker alone. */
  predicate OnlyPushes(s: Sys, s': Sys) {
    s'.w == s.w && s'.hist == s.hist && s'.base == s.base && s'.frames == s.frames
  }

  lemma PushCreates(s: Sys, t: TaskId) returns (s': Sys)
    requires Inv(s) && Idle(s) && s.hist.pending && s.alive && t !in s.tasks
    ensures Enabled(s, PushTask(t)) && s' == Step(s, PushTask(t)) && Inv(s')
    ensures s'.ops == map[CONSUMER := Store(t, New)] && s'.w == s.w
    ensures s'.hist.pending && s'.hist.outside && s'.base.Out? && s'.frames == []
  {
    StepInv(s, PushTask(t));
    hide Inv;
    s' := Step(s, PushTask(t));
  }

  lemma PushStores(s: Sys, t: TaskId) returns (s': Sys)
    requires Inv(s) && s.ops == map[CONSUMER := Store(t, New)]
    ensures PushStep(s, s') && Inv(s') && OnlyPushes(s, s')
    ensures s'.ops == map[CONSUMER := Push(t, New)]
    ensures CONSUMER in s'.q.producers && s'.q.producers[CONSUMER].Cleared?
  {
    StoreIsFree(s, CONSUMER);
    assert Enabled(s, OpStep(CONSUMER));
    StepInv(s, OpStep(CONSUMER));
    hide Inv;
    QueuePlaces(s.q, Q.Store(CONSUMER, t));
    T.StoreShape(s, CONSUMER, t, New);
    s' := StoreEffect(s, CONSUMER, t, New);
    assert s' == Step(s, OpStep(CONSUMER));
    hide Q.Step, Q.Enabled, Step, Enabled, StoreEffect;
  }

  lemma PushSwaps(s: Sys, t: TaskId) returns (s': Sys)
    requires Inv(s) && s.ops == map[CONSUMER := Push(t, New)] && CONSUMER in s.q.producers
    requires s.q.producers[CONSUMER].Cleared?
    ensures PushStep(s, s') && Inv(s') && OnlyPushes(s, s') && s'.ops == s.ops
    ensures CONSUMER in s'.q.producers && s'.q.producers[CONSUMER].Swapped? && InChain(s'.q, Q.Item(t))
  {
    SwapEnters(s, t);
    assert Enabled(s, OpStep(CONSUMER));
    StepInv(s, OpStep(CONSUMER));
    T.PushShape(s, CONSUMER);
    hide Inv, Q.Step, Q.Enabled, InChain, PushEffect, PushAction;
    s' := PushEffect(s, CONSUMER);
    assert s' == Step(s, OpStep(CONSUMER));
  }

  lemma SwapEnters(s: Sys, t: TaskId)
    requires Inv(s) && s.ops == map[CONSUMER := Push(t, New)] && CONSUMER in s.q.producers
    requires s.q.producers[CONSUMER].Cleared?
    ensures PushAction(s, CONSUMER) == Q.Swap(CONSUMER) && Q.Enabled(s.q, Q.Swap(CONSUMER))
    ensures var q := Q.Step(s.q, Q.Swap(CONSUMER));
      CONSUMER in q.producers && q.producers[CONSUMER].Swapped? && InChain(q, Q.Item(t))
  {
    assert SyncAt(s, CONSUMER) && Q.Inv(s.q);
    hide Inv, SyncAt;
    QueuePlaces(s.q, Q.Swap(CONSUMER));
    ChainStep(s.q, Q.Swap(CONSUMER));
  }

  lemma PushLinks(s: Sys, t: TaskId) returns (s': Sys)
    requires Inv(s) && s.ops == map[CONSUMER := Push(t, New)] && CONSUMER in s.q.producers
    requires s.q.producers[CONSUMER].Swapped? && InChain(s.q, Q.Item(t))
    ensures PushStep(s, s') && OnlyPushes(s, s') && s'.ops == map[]
    ensures HasEntry(s')
  {
    QueuePlaces(s.q, Q.Link(CONSUMER));
    ChainStep(s.q, Q.Link(CONSUMER));
    T.PushShape(s, CONSUMER);
    hide Inv, Q.Step, Q.Enabled, InChain, SyncAt, PushEffect;
    s' := PushEffect(s, CONSUMER);
    assert s' == Step(s, OpStep(CONSUMER));
    assert InChain(s'.q, Q.Item(t));
  }

  // ----- what poll answers

  /** `poll` answers Ready only when no task is left. */
  lemma ReadyMeansEmpty(run: seq<Action>, a: Action)
    requires Exec(run + [a]).Some?
    ensures Exec(run).Some?
    ensures var s, s' := Exec(run).value, Exec(run + [a]).value;
            InPoll(s.base) && s'.base.Out? && !s'.hist.pending ==> s'.all == {}
  {
    assert (run + [a])[..|run + [a]| - 1] == run;
    ReadyStep(Exec(run).value, a);
  }

  lemma ReadyStep(s: Sys, a: Action)
    requires Enabled(s, a)
    ensures InPoll(s.base) && Step(s, a).base.Out? && !Step(s, a).hist.pending ==> Step(s, a).all == {}
  {
    hide Q.Step, Q.Enabled, W.Step, W.Enabled, OpEffect, OpEnabled;
    if a.OpStep? { OpHistory(s, a.u); }
  }

  /** `poll` answers Pending only with a task left, or when its parent has been called. */
  lemma PendingMeansMore(run: seq<Action>, a: Action)
    requires Exec(run + [a]).Some?
    ensures Exec(run).Some?
    ensures var s, s' := Exec(run).value, Exec(run + [a]).value;
            InPoll(s.base) && s'.base.Out? && s'.hist.pending ==> s'.all != {} || s'.w.woken
  {
    assert (run + [a])[..|run + [a]| - 1] == run;
    RunInv(run);
    PendingStep(Exec(run).value, a);
  }

  lemma PendingStep(s: Sys, a: Action)
    requires Enabled(s, a) && WakeInv(s)
    ensures InPoll(s.base) && Step(s, a).base.Out? && Step(s, a).hist.pending ==> Step(s, a).all != {} || Step(s, a).w.woken
  {
    if InPoll(s.base) && Step(s, a).base.Out? {
      if a.OpStep? {
        OpHistory(s, a.u);
        hide OpEffect, OpEnabled;
      } else if a.PopStep? {
        PopPending(s, a.qa);
        hide PopEffect;
      } else {
        TurnPending(s, a);
        hide Step;
      }
    }
  }

  lemma PopPending(s: Sys, a: Q.Action)
    requires Enabled(s, PopStep(a)) && InPoll(s.base)
    ensures var s' := PopEffect(s, a); s'.base.Out? && s'.hist.pending ==> s'.all != {} || s'.w.woken
  {
    var s' := s.(q := Q.Step(s.q, a));
    if Q.Answered(s.q, a).Some? {
      AnswerPending(s', Q.Answered(s.q, a).value);
    }
    hide Q.Step, Q.Enabled, Q.Answered, PollAnswered, ClearAnswered;
  }

  lemma AnswerPending(s: Sys, answer: Q.Answer)
    ensures var s' := PollAnswered(s, answer);
      s.base.Popping? && s'.base.Out? && s'.hist.pending ==> s'.all != {} || s'.w.woken
  {
  }

  lemma TurnPending(s: Sys, a: Action)
    requires Enabled(s, a) && InPoll(s.base) && !a.OpStep? && !a.PopStep?
    requires s.base.Dropping? && s.base.returning ==> s.w.woken
    ensures Step(s, a).base.Out? ==> Step(s, a).w.woken
  {
    hide Q.Step, Q.Enabled, W.Step, W.Enabled;
  }

  /** With L tasks at its start and n pushed while it runs, one poll drives at most 2(L + n) futures. */
  lemma DrivesAreBounded(run: seq<Action>)
    requires Exec(run).Some? && InPoll(Exec(run).value.base)
    ensures Exec(run).value.iteration <= 2 * (Exec(run).value.hist.start + Exec(run).value.hist.created)
  {
    RunInv(run);
  }

  // ----- clear

  /**
   When `clear` finishes and no other thread is mid-operation, the list and the queue are empty, every
   future ever pushed was dropped exactly once, and only tokens, wakers and the counts lost in poll's
   Cancelled branch still refer to tasks.
   */
  lemma ClearLeavesNothing(run: seq<Action>, a: Q.Action, t: TaskId, h: Holder)
    requires Exec(run + [PopStep(a)]).Some?
    ensures Exec(run).Some?
    ensures var s, s' := Exec(run).value, Exec(run + [PopStep(a)]).value;
            s.base.ClearPop? && s'.base.Out? && s.ops == map[] ==>
              && s'.all == {} && !HasEntry(s')
              && (t in s'.tasks ==> s'.tasks[t].done.Done? && s'.tasks[t].dropped == 1)
              && (IsHolder(s', t, h) ==> h.Token? || h.Handle? || h.Leaked?)
  {
    var run' := run + [PopStep(a)];
    assert run'[..|run'| - 1] == run;
    RunInv(run);
    RunInv(run');
    var s, s' := Exec(run).value, Exec(run').value;
    assert Inv(s) && Inv(s') && s' == PopEffect(s, a) && Enabled(s, PopStep(a));
    hide AllInv, Exec, Enabled, Inv, Step, PopEffect, HasEntry, IsHolder;
    if s.base.ClearPop? && s'.base.Out? && s.ops == map[] {
      ClearedQueue(s, a);
      AfterClear(s', t, h);
    }
  }

  lemma AfterClear(s: Sys, t: TaskId, h: Holder)
    requires Inv(s) && s.all == {} && !HasEntry(s) && Idle(s)
    ensures t in s.tasks ==> s.tasks[t].done.Done? && s.tasks[t].dropped == 1
    ensures IsHolder(s, t, h) ==> h.Token? || h.Handle? || h.Leaked?
  {
    assert TaskAt(s, t);
    assert !InChain(s.q, Q.Item(t));
  }

  lemma NoneMidPush(s: Sys)
    requires Sync(s) && s.ops == map[]
    ensures !Q.MidPush(s.q)
  {
    forall u ensures u !in s.q.producers { assert SyncAt(s, u); }
  }

  lemma ClearedQueue(s: Sys, a: Q.Action)
    requires Inv(s) && Enabled(s, PopStep(a)) && s.base.ClearPop? && PopEffect(s, a).base.Out? && s.ops == map[]
    ensures PopEffect(s, a).all == {} && Idle(PopEffect(s, a)) && !HasEntry(PopEffect(s, a))
  {
    var s' := PopEffect(s, a);
    NoneMidPush(s);
    QueueRuns.AnswersExplained(s.q, a);
    assert s'.q == Q.Step(s.q, a) && Q.Answered(s.q, a) == Some(Q.Empty);
    if HasEntry(s') {
      EntryIsPending(s');
    }
  }

  /** The queue has gone: the scheduler is dropped, and no operation under way holds the queue. */
  ghost predicate QueueGone(s: Sys) {
    !QueueHeld(s)
  }

  /** Nobody can come back to the task: an entry of a queue that has gone, or a count left behind, is all there is. */
  ghost predicate Forgotten(s: Sys, t: TaskId) {
    forall h: Holder :: IsHolder(s, t, h) ==> h.Leaked? || (h.Entry? && QueueGone(s))
  }

  /** The entry of the task is in a queue that has gone. */
  ghost predicate Stranded(s: Sys, t: TaskId) {
    QueueGone(s) && InChain(s.q, Q.Item(t))
  }

  /**
   A task that nobody refers to any more is freed if and only if it was not drained through poll's
   Cancelled branch and its entry is not in a queue that has gone. Otherwise exactly the one count of
   that entry remains, and no step can give it back.
   */
  lemma FreedUnlessLeaked(run: seq<Action>, t: TaskId)
    requires Exec(run).Some? && t in Exec(run).value.tasks && Forgotten(Exec(run).value, t)
    ensures var s := Exec(run).value;
      && (s.tasks[t].count == 0 <==> t !in s.leaked && !Stranded(s, t))
      && s.tasks[t].count == (if t in s.leaked then 1 else 0) + (if Stranded(s, t) then 1 else 0)
  {
    CountIsHolders(run, t, Leaked);
    hide Exec, InChain, QueueHeld;
    ForgottenHolders(Exec(run).value, t);
  }

  /** What is left of the holders of a forgotten task. */
  lemma ForgottenHolders(s: Sys, t: TaskId)
    requires Forgotten(s, t)
    ensures Holders(s, t) == (if t in s.leaked then {Leaked} else {}) + (if Stranded(s, t) then {Entry} else {})
  {
    hide QueueHeld, InChain;
    forall h: Holder ensures h in Holders(s, t) <==> IsHolder(s, t, h) { HolderIff(s, t, h); }
    assert IsHolder(s, t, Leaked) <==> t in s.leaked;
    assert IsHolder(s, t, Entry) <==> InChain(s.q, Q.Item(t));
    var left := (if t in s.leaked then {Leaked} else {}) + (if Stranded(s, t) then {Entry} else {});
    forall h: Holder ensures h in Holders(s, t) <==> h in left {
      if IsHolder(s, t, h) {
        assert h.Leaked? || h.Entry?;
      }
    }
  }
}
