/**
 Exactly when the parent of a poll is called: what the atomic waker promises, carried over the runs of the
 whole scheduler, whatever is pushed, woken and cancelled meanwhile.
 */
module SchedularCalls {
  import opened Wrappers
  import opened Schedular
  import opened SchedularInv
  import opened SchedularSafety
  import opened SchedularWake
  import opened SchedularRuns
  import opened SchedularEnd
  import A = AtomicWakerRuns
  import T = SchedularTurns
  import Q = Queue
  import W = AtomicWaker

  /** The step of the atomic waker that a step takes, if it takes one. */
  function WakerStep(s: Sys, a: Action): Option<W.Action> {
    match a
    case OpStep(u) =>
      if u !in s.ops then None
      else if s.ops[u].Signal? then Some(W.FetchOr(u))
      else if s.ops[u].Waking? then Some(WakeAction(s, u))
      else None
    case RegisterStep(wa) => Some(wa)
    case _ => None
  }

  /** `poll` calls the waker of its parent itself: it met an inconsistent queue, or yields early. */
  predicate Notifies(s: Sys, a: Action)
    requires Enabled(s, a)
  {
    match a
    case PopStep(qa) => s.base.Popping? && Q.Answered(s.q, qa) == Some(Q.Inconsistent)
    case EndDrive(ready) => !ready && EndDriveEffect(s, s.base.task, false).base == Dropping(s.base.task, true)
    case _ => false
  }

  predicate Registers(s: Sys, a: Action) {
    a.StartPoll? && s.all != {}
  }

  /** What a step does to the atomic waker, and whom it calls. */
  ghost predicate WakerMoved(s: Sys, a: Action)
    requires Enabled(s, a)
  {
    var w' := Step(s, a).w;
    match WakerStep(s, a)
    case Some(wa) =>
      && W.Enabled(s.w, wa) && !wa.Begin? && w' == W.Step(s.w, wa)
      && CallsParent(s, a) == W.Called(s.w, wa) && !Notifies(s, a)
    case None =>
      if Notifies(s, a) then w' == s.w.(woken := true) && CallsParent(s, a) == s.w.current
      else w' == s.w && CallsParent(s, a) == None
  }

  lemma WakerMoves(s: Sys, a: Action)
    requires Enabled(s, a) && !Registers(s, a)
    ensures WakerMoved(s, a)
  {
    if a.OpStep? {
      OpMoves(s, a.u);
    } else if a.PopStep? {
      PopMovesWaker(s, a.qa);
    } else {
      hide Q.Step, Q.Enabled, W.Step, W.Enabled, OpEffect, PopEffect, W.Called;
    }
  }

  lemma OpMoves(s: Sys, u: Tid)
    requires OpEnabled(s, u)
    ensures WakerMoved(s, OpStep(u))
  {
    var op := s.ops[u];
    if op.Signal? {
      T.SignalShape(s, u);
      hide SignalEffect, W.Step, W.Enabled;
    } else if op.Waking? {
      T.WakingShape(s, u);
      hide WakingEffect, W.Step, W.Enabled, W.Called;
    } else if op.Store? || op.Push? {
      T.PushOpElsewhere(s, u);
      hide OpEffect, Q.Enabled;
    } else {
      T.PlainOpElsewhere(s, u);
      hide OpEffect;
    }
  }

  lemma PopMovesWaker(s: Sys, qa: Q.Action)
    requires Enabled(s, PopStep(qa))
    ensures WakerMoved(s, PopStep(qa))
  {
    var s' := s.(q := Q.Step(s.q, qa));
    if Q.Answered(s.q, qa).Some? {
      AnswerMovesWaker(s', Q.Answered(s.q, qa).value);
    }
    hide Q.Step, Q.Enabled, Q.Answered, PollAnswered, ClearAnswered;
  }

  lemma AnswerMovesWaker(s: Sys, answer: Q.Answer)
    ensures PollAnswered(s, answer).w == if answer.Inconsistent? then s.w.(woken := true) else s.w
    ensures ClearAnswered(s, answer).w == s.w
  {
  }

  // ----- one step

  lemma OwedMoves(s: Sys, a: Action, w: W.Waker)
    requires Inv(s) && Enabled(s, a) && WakerMoved(s, a)
    requires A.Owed(s.w, w) && s.w.current == Some(w)
    ensures A.Owed(Step(s, a).w, w)
  {
    assert W.Inv(s.w);
    hide Inv, Step, Enabled, Notifies, CallsParent;
    if WakerStep(s, a).Some? {
      A.OwedStep(s.w, WakerStep(s, a).value, w);
    }
  }

  lemma UnowedMoves(s: Sys, a: Action, w: W.Waker)
    requires Inv(s) && Enabled(s, a) && WakerMoved(s, a) && !Notifies(s, a)
    requires WakerStep(s, a).Some? ==> !WakerStep(s, a).value.FetchOr?
    requires A.Unowed(s.w, w)
    ensures A.Unowed(Step(s, a).w, w) && CallsParent(s, a) != Some(w)
  {
    assert W.Inv(s.w);
    hide Inv, Step, Enabled, Notifies, CallsParent;
    if WakerStep(s, a).Some? {
      A.UnowedStep(s.w, WakerStep(s, a).value, w);
    }
  }

  lemma RecordMoves(s: Sys, a: Action)
    requires Enabled(s, a) && WakerMoved(s, a)
    ensures var w' := Step(s, a).w;
      && w'.current == s.w.current
      && (w'.signalled <==> s.w.signalled || (WakerStep(s, a).Some? && WakerStep(s, a).value.FetchOr?))
      && (s.w.woken || Notifies(s, a) ==> w'.woken)
      && (w'.woken && !s.w.woken && s.w.current.Some? ==> CallsParent(s, a) == s.w.current)
  {
    hide Step, Enabled, Notifies, CallsParent;
    if WakerStep(s, a).Some? {
      WakerStepCalls(s.w, WakerStep(s, a).value);
      SignalIsKept(s.w, WakerStep(s, a).value);
    }
    hide W.Step, W.Enabled, W.Called, WakerStep;
  }

  lemma SignalIsKept(w: W.State, wa: W.Action)
    requires W.Enabled(w, wa) && !wa.Begin?
    ensures W.Step(w, wa).signalled <==> w.signalled || wa.FetchOr?
    ensures w.woken ==> W.Step(w, wa).woken
  {
  }

  // ----- over runs

  /** Step `j` does the fetch_or of a wake. */
  ghost predicate SignalsAt(run: seq<Action>, j: nat) {
    && j < |run| && Exec(run[..j]).Some?
    && var wa := WakerStep(Exec(run[..j]).value, run[j]); wa.Some? && wa.value.FetchOr?
  }

  ghost predicate NotifiesAt(run: seq<Action>, j: nat) {
    && j < |run| && Exec(run[..j]).Some? && Enabled(Exec(run[..j]).value, run[j])
    && Notifies(Exec(run[..j]).value, run[j])
  }

  /** The waker is owed a call from the start: a wake holds the cell, or some thread is about to call it. */
  ghost predicate OwedAtStart(b: W.State, w: W.Waker) {
    b.waking || A.SomeCalls(b, w)
  }

  /** Step `i` registered waker `w`, and no poll registered since. */
  ghost predicate LastStart(run: seq<Action>, i: nat, w: W.Waker) {
    && i < |run| && run[i] == StartPoll(w) && Exec(run[..i]).Some? && Exec(run[..i]).value.all != {}
    && forall j :: i < j < |run| ==> !RegistersThere(run, j)
  }

  ghost predicate RegistersThere(run: seq<Action>, j: nat)
    requires j < |run|
  {
    Exec(run[..j]).Some? && Registers(Exec(run[..j]).value, run[j])
  }

  /** What the last step of a run adds to its events. */
  lemma LastEvents(run: seq<Action>, j: nat, w: W.Waker)
    requires run != [] && Exec(run).Some?
    ensures var front, a := run[..|run| - 1], run[|run| - 1]; var s := Exec(front);
      && s.Some? && Enabled(s.value, a)
      && (j < |front| ==>
            && (SignalsAt(run, j) <==> SignalsAt(front, j)) && (NotifiesAt(run, j) <==> NotifiesAt(front, j))
            && (CallsAt(run, j, w) <==> CallsAt(front, j, w)) && run[..j] == front[..j])
      && (j == |front| ==>
            && (SignalsAt(run, j) <==> WakerStep(s.value, a).Some? && WakerStep(s.value, a).value.FetchOr?)
            && (NotifiesAt(run, j) <==> Notifies(s.value, a))
            && (CallsAt(run, j, w) <==> CallsParent(s.value, a) == Some(w)) && run[..j] == front)
      && (j > |front| ==> !SignalsAt(run, j) && !NotifiesAt(run, j) && !CallsAt(run, j, w))
      && (j >= |front| ==> !SignalsAt(front, j) && !NotifiesAt(front, j) && !CallsAt(front, j, w))
  {
    var front, a := run[..|run| - 1], run[|run| - 1];
    assert Exec(front).Some? && Enabled(Exec(front).value, a);
    hide Exec, Enabled, Notifies, CallsParent, WakerStep;
    if j < |front| {
      assert run[..j] == front[..j];
    } else if j == |front| {
      assert run[..j] == front;
    }
  }

  lemma StartBefore(run: seq<Action>, i: nat, w: W.Waker)
    requires LastStart(run, i, w) && Exec(run).Some? && i < |run| - 1
    ensures var front, a := run[..|run| - 1], run[|run| - 1];
      && LastStart(front, i, w) && Exec(front).Some? && !Registers(Exec(front).value, a) && run[..i] == front[..i]
  {
    var front := run[..|run| - 1];
    assert Exec(front).Some?;
    hide Exec, Registers;
    assert run[..i] == front[..i] && run[..|front|] == front;
    assert !RegistersThere(run, |front|);
    forall j | i < j < |front|
      ensures !RegistersThere(front, j)
    {
      assert run[..j] == front[..j] && !RegistersThere(run, j);
    }
  }

  /** What the last step does, given what was before. */
  lemma LastMove(run: seq<Action>, i: nat, w: W.Waker)
    requires LastStart(run, i, w) && Exec(run).Some? && i < |run| - 1
    ensures var front, a := run[..|run| - 1], run[|run| - 1];
      && LastStart(front, i, w) && Exec(front).Some? && run[..i] == front[..i]
      && var s := Exec(front).value;
        Inv(s) && Enabled(s, a) && WakerMoved(s, a) && Exec(run).value == Step(s, a)
  {
    StartBefore(run, i, w);
    var front, a := run[..|run| - 1], run[|run| - 1];
    RunInv(front);
    WakerMoves(Exec(front).value, a);
    hide Enabled, Step, WakerMoved, LastStart;
  }

  lemma StartMove(s: Sys, w: W.Waker)
    requires Inv(s) && Enabled(s, StartPoll(w)) && s.all != {}
    ensures var w' := Step(s, StartPoll(w)).w;
      && w'.current == Some(w) && !w'.signalled && !w'.woken
      && (OwedAtStart(s.w, w) ==> A.Owed(w', w)) && (!OwedAtStart(s.w, w) ==> A.Unowed(w', w))
    ensures !Notifies(s, StartPoll(w)) && WakerStep(s, StartPoll(w)).None? && CallsParent(s, StartPoll(w)).None?
  {
    assert W.Inv(s.w);
    A.BeginOwes(s.w, w);
    hide Inv, A.Owed, A.Unowed;
  }

  /** At the registration itself. */
  lemma AtStart(run: seq<Action>, i: nat, w: W.Waker)
    requires LastStart(run, i, w) && Exec(run).Some? && i == |run| - 1
    ensures var b, s := Exec(run[..i]).value.w, Exec(run).value.w;
      && s.current == Some(w) && !s.signalled && !s.woken
      && (OwedAtStart(b, w) ==> A.Owed(s, w)) && (!OwedAtStart(b, w) ==> A.Unowed(s, w))
  {
    assert run[..i] == run[..|run| - 1];
    RunInv(run[..i]);
    StartMove(Exec(run[..i]).value, w);
    hide Step, Enabled, OwedAtStart, A.Owed, A.Unowed;
  }

  lemma {:induction false} RecordAfter(run: seq<Action>, i: nat, w: W.Waker)
    requires LastStart(run, i, w) && Exec(run).Some?
    ensures var s := Exec(run).value.w;
      && s.current == Some(w)
      && (s.signalled <==> exists j :: i < j && SignalsAt(run, j))
      && (s.woken ==> exists k :: i < k && CallsAt(run, k, w))
      && (s.woken <== exists j :: i < j && NotifiesAt(run, j))
  {
    hide Exec, Enabled, Step, LastStart, SignalsAt, NotifiesAt, CallsAt, CallsParent, Notifies, WakerStep, OwedAtStart,
         A.Owed, A.Unowed;
    assert i < |run| by { StartIndex(run, i, w); }
    if i == |run| - 1 {
      AtStart(run, i, w);
      forall j | i < j
        ensures !SignalsAt(run, j) && !NotifiesAt(run, j)
      {
        LastEvents(run, j, w);
      }
    } else {
      LastMove(run, i, w);
      var front, a := run[..|run| - 1], run[|run| - 1];
      RecordAfter(front, i, w);
      RecordMoves(Exec(front).value, a);
      hide WakerMoved;
      EventsGrow(run, i, w);
    }
  }

  lemma StartIndex(run: seq<Action>, i: nat, w: W.Waker)
    requires LastStart(run, i, w)
    ensures i < |run|
  {
  }

  /** The events of a run are those of all but its last step, and those of that step. */
  lemma EventsGrow(run: seq<Action>, i: nat, w: W.Waker)
    requires Exec(run).Some? && i < |run| - 1
    ensures var front, a := run[..|run| - 1], run[|run| - 1];
      && Exec(front).Some? && Enabled(Exec(front).value, a)
      && var s := Exec(front).value;
      && ((exists j :: i < j && SignalsAt(run, j)) <==>
            (exists j :: i < j && SignalsAt(front, j)) || (WakerStep(s, a).Some? && WakerStep(s, a).value.FetchOr?))
      && ((exists j :: i < j && NotifiesAt(run, j)) <==> (exists j :: i < j && NotifiesAt(front, j)) || Notifies(s, a))
      && ((exists k :: i < k && CallsAt(run, k, w)) <==>
            (exists k :: i < k && CallsAt(front, k, w)) || CallsParent(s, a) == Some(w))
  {
    hide Exec, Enabled, Step, SignalsAt, NotifiesAt, CallsAt, CallsParent, Notifies, WakerStep;
    var front := run[..|run| - 1];
    LastEvents(run, |front|, w);
    forall j: nat
      ensures SignalsAt(run, j) <==> if j == |front| then SignalsAt(run, |front|) else SignalsAt(front, j)
      ensures NotifiesAt(run, j) <==> if j == |front| then NotifiesAt(run, |front|) else NotifiesAt(front, j)
      ensures CallsAt(run, j, w) <==> if j == |front| then CallsAt(run, |front|, w) else CallsAt(front, j, w)
      ensures j >= |front| ==> !SignalsAt(front, j) && !NotifiesAt(front, j) && !CallsAt(front, j, w)
    {
      LastEvents(run, j, w);
    }
  }

  lemma {:induction false} OwedAfter(run: seq<Action>, i: nat, w: W.Waker)
    requires LastStart(run, i, w) && Exec(run).Some? && OwedAtStart(Exec(run[..i]).value.w, w)
    ensures A.Owed(Exec(run).value.w, w)
  {
    hide Exec, Enabled, Step, LastStart, OwedAtStart, A.Owed, A.Unowed;
    assert i < |run| && Exec(run[..i]).Some? by { StartState(run, i, w); }
    if i == |run| - 1 {
      AtStart(run, i, w);
    } else {
      LastMove(run, i, w);
      var front, a := run[..|run| - 1], run[|run| - 1];
      OwedAfter(front, i, w);
      RecordAfter(front, i, w);
      OwedMoves(Exec(front).value, a, w);
    }
  }

  lemma StartState(run: seq<Action>, i: nat, w: W.Waker)
    requires LastStart(run, i, w)
    ensures i < |run| && Exec(run[..i]).Some?
  {
  }

  /** After step `i` nothing signals and `poll` does not call its parent itself. */
  ghost predicate NothingTells(run: seq<Action>, i: nat) {
    forall j :: i < j ==> !SignalsAt(run, j) && !NotifiesAt(run, j)
  }

  lemma {:induction false} UnowedAfter(run: seq<Action>, i: nat, w: W.Waker)
    requires LastStart(run, i, w) && Exec(run).Some? && Exec(run[..i]).Some? && !OwedAtStart(Exec(run[..i]).value.w, w)
    requires NothingTells(run, i)
    ensures A.Unowed(Exec(run).value.w, w) && !(exists k :: i < k && CallsAt(run, k, w))
  {
    hide Exec, Enabled, Step, LastStart, OwedAtStart, A.Owed, A.Unowed, SignalsAt, NotifiesAt, CallsAt, CallsParent, Notifies,
         WakerStep;
    assert i < |run| by { StartIndex(run, i, w); }
    if i == |run| - 1 {
      AtStart(run, i, w);
      forall k | i < k
        ensures !CallsAt(run, k, w)
      {
        LastEvents(run, k, w);
      }
    } else {
      LastMove(run, i, w);
      var front, a := run[..|run| - 1], run[|run| - 1];
      EventsGrow(run, i, w);
      assert NothingTells(front, i);
      UnowedAfter(front, i, w);
      UnowedMoves(Exec(front).value, a, w);
    }
  }

  /** With no thread mid-operation, a waker that is owed a call, or signalled, was called. */
  lemma IdleIsWoken(s: Sys, w: W.Waker)
    requires Inv(s) && Idle(s) && s.w.current == Some(w) && (s.w.signalled || A.Owed(s.w, w))
    ensures s.w.woken
  {
    assert s.w.wakers == map[] && s.w.register.Idle? && W.Inv(s.w) by {
      assert Sync(s);
      forall u: Tid ensures u !in s.w.wakers { assert SyncAt(s, u); }
    }
    hide Inv;
    if s.w.signalled {
      A.QuietMeansWoken(s.w);
    }
  }

  /**
   Exactly when the parent is called: at the end of any run in which all is idle, the waker that the last
   poll registered has been called since if and only if at that registration the waking bit was set or
   some thread was about to call that waker, or since then a wake did its fetch_or, or `poll` called it
   itself. Nothing else that happens in the run, like pushes from outside, makes a difference.
   */
  lemma ParentCalledExactly(run: seq<Action>, i: nat, w: W.Waker)
    requires LastStart(run, i, w) && Exec(run).Some? && Idle(Exec(run).value)
    ensures Exec(run[..i]).Some?
    ensures (exists k :: i < k && CallsAt(run, k, w)) <==>
              OwedAtStart(Exec(run[..i]).value.w, w) || !NothingTells(run, i)
  {
    hide Exec, LastStart, OwedAtStart, A.Owed, A.Unowed, SignalsAt, NotifiesAt, CallsAt, Idle;
    StartState(run, i, w);
    RecordAfter(run, i, w);
    RunInv(run);
    var s := Exec(run).value;
    assert Inv(s);
    if OwedAtStart(Exec(run[..i]).value.w, w) {
      OwedAfter(run, i, w);
      IdleIsWoken(s, w);
    } else if NothingTells(run, i) {
      UnowedAfter(run, i, w);
    } else if s.w.signalled {
      IdleIsWoken(s, w);
    }
  }
}
