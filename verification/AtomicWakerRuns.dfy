/**
 What the atomic waker promises over whole runs of one registrar and any number of wakers.
 */
module AtomicWakerRuns {
  import opened Wrappers
  import opened AtomicWaker

  ghost function Exec(run: seq<Action>): Option<State> {
    if run == [] then Some(Init())
    else
      var before := Exec(run[..|run| - 1]);
      var a := run[|run| - 1];
      if before.Some? && Enabled(before.value, a) then Some(Step(before.value, a)) else None
  }

  /** Step `k` of the run calls waker `w`. */
  ghost predicate CallsAt(run: seq<Action>, k: nat, w: Waker) {
    && k < |run|
    && Exec(run[..k]).Some?
    && Enabled(Exec(run[..k]).value, run[k])
    && Called(Exec(run[..k]).value, run[k]) == Some(w)
  }

  /** No thread is inside `register` or `wake`. */
  predicate Quiet(s: State) {
    s.register.Idle? && s.wakers == map[]
  }

  lemma {:induction false} RunInv(run: seq<Action>)
    requires Exec(run).Some?
    ensures Inv(Exec(run).value)
  {
    if run == [] {
      InitInv();
    } else {
      RunInv(run[..|run| - 1]);
      StepInv(Exec(run[..|run| - 1]).value, run[|run| - 1]);
    }
  }

  /**
   In every reachable state the bits say who holds the cell, at most one thread is in the critical
   section, and neither the assert on the failed release nor the unwrap of the cell can fail.
   */
  lemma BitsTellTheHolder(run: seq<Action>, t: Tid, u: Tid)
    requires Exec(run).Some?
    ensures var s := Exec(run).value;
            && (s.registering <==> RegisterHolds(s))
            && (!s.registering ==> (s.waking <==> SomeHolds(s)))
            && (Holds(s, t) ==> s.waking && !RegisterHolds(s))
            && (Holds(s, t) && Holds(s, u) ==> t == u)
            && !s.register.Panicked?
            && (s.register.Committing? && !(s.registering && !s.waking) ==> s.registering && s.waking)
            && (s.register.Reclaiming? ==> s.registering && s.waking && s.cell.Some?)
  {
    RunInv(run);
    var s := Exec(run).value;
    if Holds(s, t) {
      assert SomeHolds(s);
    }
  }

  /** What the history variables say about the part of a run after its last `register` began. */
  lemma {:induction false} History(run: seq<Action>, i: nat, w: Waker)
    requires Exec(run).Some? && i < |run| && run[i] == Begin(w)
    requires forall j :: i < j < |run| ==> !run[j].Begin?
    ensures Exec(run).value.current == Some(w)
    ensures Exec(run).value.signalled <==> exists j :: i < j < |run| && run[j].FetchOr?
    ensures Exec(run).value.woken ==> exists k :: i < k && CallsAt(run, k, w)
  {
    var front, a := run[..|run| - 1], run[|run| - 1];
    if i < |run| - 1 {
      History(front, i, w);
      var s := Exec(front).value;
      if j :| i < j < |front| && front[j].FetchOr? {
        assert run[j].FetchOr?;
      }
      if k :| i < k && CallsAt(front, k, w) {
        assert run[..k] == front[..k] && CallsAt(run, k, w);
      }
      if Called(s, a) == Some(w) {
        assert run[..|run| - 1] == front && CallsAt(run, |run| - 1, w);
      }
      if a.FetchOr? {
        assert run[|run| - 1].FetchOr?;
      }
    }
  }

  /** Once everything is quiet, a wake that was signalled was delivered. */
  lemma QuietMeansWoken(s: State)
    requires Inv(s) && Quiet(s) && s.current.Some? && s.signalled
    ensures s.woken
  {
  }

  /**
   No wake is lost: if a `wake` does its fetch_or after `register(w)` began, and no other `register`
   began since, then once all threads are idle `w` has been called since that beginning, whichever
   thread ended up responsible.
   */
  lemma WakeIsDelivered(run: seq<Action>, i: nat, j: nat, w: Waker)
    requires Exec(run).Some? && i < j < |run|
    requires run[i] == Begin(w) && run[j].FetchOr?
    requires forall k :: i < k < |run| ==> !run[k].Begin?
    requires Quiet(Exec(run).value)
    ensures exists k :: i < k && CallsAt(run, k, w)
  {
    RunInv(run);
    History(run, i, w);
    QuietMeansWoken(Exec(run).value);
  }

  /** Some thread is about to call `w`. */
  ghost predicate SomeCalls(s: State, w: Waker) {
    exists t :: t in s.wakers && s.wakers[t] == Calling(w)
  }

  /** The waker is owed a call, or had it. */
  ghost predicate Owed(s: State, w: Waker) {
    s.woken || s.register == CallingSelf(w) || SomeCalls(s, w)
  }

  /** No call of the waker can come without a new signal. */
  ghost predicate Unowed(s: State, w: Waker) {
    && !s.waking && (s.register.Idle? || s.register.Storing? || s.register.Committing?)
    && forall t :: t in s.wakers ==> s.wakers[t].Calling? && s.wakers[t] != Calling(w)
  }

  lemma BeginOwes(b: State, w: Waker)
    requires Inv(b) && Enabled(b, Begin(w))
    ensures b.waking || SomeCalls(b, w) ==> Owed(Step(b, Begin(w)), w)
    ensures !b.waking && !SomeCalls(b, w) ==> Unowed(Step(b, Begin(w)), w)
  {
    var s := Step(b, Begin(w));
    if t :| t in b.wakers && b.wakers[t] == Calling(w) {
      assert s.wakers[t] == Calling(w);
    }
    if !b.waking {
      forall t | t in b.wakers ensures b.wakers[t].Calling? { assert !Holds(b, t); }
    }
  }

  lemma OwedStep(s: State, a: Action, w: Waker)
    requires Owed(s, w) && Enabled(s, a) && !a.Begin? && s.current == Some(w)
    requires s.register.CallingSelf? ==> s.register.target == w
    ensures Owed(Step(s, a), w)
  {
    var s' := Step(s, a);
    if !s.woken && s.register != CallingSelf(w) {
      var t :| t in s.wakers && s.wakers[t] == Calling(w);
      assert s'.woken || (t in s'.wakers && s'.wakers[t] == Calling(w));
    }
  }

  lemma UnowedStep(s: State, a: Action, w: Waker)
    requires Unowed(s, w) && Inv(s) && Enabled(s, a) && !a.Begin? && !a.FetchOr?
    ensures Unowed(Step(s, a), w) && Called(s, a) != Some(w)
  {
  }

  lemma {:induction false} StaysOwed(run: seq<Action>, i: nat, w: Waker)
    requires Exec(run).Some? && i < |run| && run[i] == Begin(w)
    requires forall j :: i < j < |run| ==> !run[j].Begin?
    requires Exec(run[..i]).Some? && (Exec(run[..i]).value.waking || SomeCalls(Exec(run[..i]).value, w))
    ensures Owed(Exec(run).value, w)
  {
    var front, a := run[..|run| - 1], run[|run| - 1];
    RunInv(front);
    if i == |run| - 1 {
      BeginOwes(Exec(front).value, w);
    } else {
      assert run[..i] == front[..i];
      StaysOwed(front, i, w);
      History(front, i, w);
      OwedStep(Exec(front).value, a, w);
    }
  }

  lemma {:induction false} StaysUnowed(run: seq<Action>, i: nat, w: Waker)
    requires Exec(run).Some? && i < |run| && run[i] == Begin(w)
    requires forall j :: i < j < |run| ==> !run[j].Begin? && !run[j].FetchOr?
    requires Exec(run[..i]).Some? && !Exec(run[..i]).value.waking && !SomeCalls(Exec(run[..i]).value, w)
    ensures Unowed(Exec(run).value, w)
    ensures forall k :: i < k ==> !CallsAt(run, k, w)
  {
    var front, a := run[..|run| - 1], run[|run| - 1];
    RunInv(front);
    if i == |run| - 1 {
      BeginOwes(Exec(front).value, w);
    } else {
      assert run[..i] == front[..i];
      StaysUnowed(front, i, w);
      UnowedStep(Exec(front).value, a, w);
      forall k | i < k < |front|
        ensures !CallsAt(run, k, w)
      {
        assert run[..k] == front[..k] && !CallsAt(front, k, w);
      }
    }
  }

  lemma {:induction false} PrefixRuns(run: seq<Action>, i: nat)
    requires Exec(run).Some? && i <= |run|
    ensures Exec(run[..i]).Some?
  {
    if i == |run| {
      assert run[..i] == run;
    } else {
      var front := run[..|run| - 1];
      assert run[..i] == front[..i];
      PrefixRuns(front, i);
    }
  }

  /**
   Exactly when a registered waker is called: with no later `register` and all threads idle in the end,
   it is called after its `register` began if and only if at that beginning the waking bit was set or
   some thread was about to call this waker, or a `wake` did its fetch_or later.
   */
  lemma CalledExactly(run: seq<Action>, i: nat, w: Waker)
    requires Exec(run).Some? && i < |run| && run[i] == Begin(w)
    requires forall j :: i < j < |run| ==> !run[j].Begin?
    requires Quiet(Exec(run).value)
    ensures Exec(run[..i]).Some?
    ensures var b := Exec(run[..i]).value;
            (exists k :: i < k && CallsAt(run, k, w)) <==>
              b.waking || SomeCalls(b, w) || exists j :: i < j < |run| && run[j].FetchOr?
  {
    PrefixRuns(run, i);
    var b := Exec(run[..i]).value;
    if b.waking || SomeCalls(b, w) {
      StaysOwed(run, i, w);
      History(run, i, w);
    } else if j :| i < j < |run| && run[j].FetchOr? {
      WakeIsDelivered(run, i, j, w);
    } else {
      StaysUnowed(run, i, w);
    }
  }

  ghost predicate CallingNow(s: State, t: Tid, w: Waker) {
    t in s.wakers && s.wakers[t] == Calling(w)
  }

  lemma CallingStays(s: State, a: Action, t: Tid, w: Waker)
    requires CallingNow(s, t, w) && Enabled(s, a) && a != Call(t)
    ensures CallingNow(Step(s, a), t, w)
  {
  }

  /** Once a thread holds a waker to call, it calls it before it is done. */
  lemma {:induction false} CallingIsCalled(run: seq<Action>, j: nat, t: Tid, w: Waker)
    requires Exec(run).Some? && j <= |run| && Exec(run[..j]).Some?
    requires CallingNow(Exec(run[..j]).value, t, w)
    ensures (exists k :: j <= k && CallsAt(run, k, w) && run[k] == Call(t)) || CallingNow(Exec(run).value, t, w)
  {
    if j == |run| {
      assert run[..j] == run;
    } else {
      var front, a := run[..|run| - 1], run[|run| - 1];
      assert run[..j] == front[..j];
      CallingIsCalled(front, j, t, w);
      if CallingNow(Exec(front).value, t, w) && a != Call(t) {
        CallingStays(Exec(front).value, a, t, w);
      }
      assert Exec(run) == Some(Step(Exec(front).value, a)) && Enabled(Exec(front).value, a);
      assert a == Call(t) && CallingNow(Exec(front).value, t, w) ==> Called(Exec(front).value, a) == Some(w);
      hide Exec, Step, Enabled;
      if k :| j <= k && CallsAt(front, k, w) && front[k] == Call(t) {
        assert run[..k] == front[..k] && CallsAt(run, k, w) && run[k] == Call(t);
      } else if a == Call(t) {
        assert CallsAt(run, |run| - 1, w);
      }
    }
  }

  // ----- one call for one registration

  /** How often the run registered waker `w`. */
  function Registrations(run: seq<Action>, w: Waker): nat {
    if run == [] then 0
    else Registrations(run[..|run| - 1], w) + if run[|run| - 1] == Begin(w) then 1 else 0
  }

  /** How often the run called it. */
  ghost function Calls(run: seq<Action>, w: Waker): nat
    requires Exec(run).Some?
  {
    if run == [] then 0
    else
      var front := run[..|run| - 1];
      Calls(front, w) + if Called(Exec(front).value, run[|run| - 1]) == Some(w) then 1 else 0
  }

  /** The threads that hold the waker, to call it. */
  function Carriers(s: State, w: Waker): set<Tid> {
    set t | t in s.wakers && (s.wakers[t] == Releasing(Some(w)) || s.wakers[t] == Calling(w))
  }

  /** How many copies of the waker there are: in the cell, with threads, and in the hands of the registrar. */
  function Copies(s: State, w: Waker): nat {
    |Carriers(s, w)|
    + (if s.cell == Some(w) then 1 else 0)
    + (if s.register == Storing(w) || s.register == Handing(w) || s.register == CallingSelf(w) then 1 else 0)
  }

  /** A call uses up a copy, and only `register` makes one. */
  lemma CopiesMove(s: State, a: Action, w: Waker)
    requires Enabled(s, a)
    ensures Copies(Step(s, a), w) + (if Called(s, a) == Some(w) then 1 else 0) <= Copies(s, w) + if a == Begin(w) then 1 else 0
  {
    if a.FetchOr? || a.TakeCell? || a.FetchAnd? || a.Call? {
      CarriersMove(s, a, w);
    }
    hide Carriers;
  }

  /** A step of a thread changes what that thread holds. */
  lemma CarriersMove(s: State, a: Action, w: Waker)
    requires Enabled(s, a) && (a.FetchOr? || a.TakeCell? || a.FetchAnd? || a.Call?)
    ensures var s' := Step(s, a);
      |Carriers(s', w)| == |Carriers(s, w)|
        + (if a.TakeCell? && s.cell == Some(w) then 1 else 0) - (if a.Call? && s.wakers[a.t] == Calling(w) then 1 else 0)
  {
    var s' := Step(s, a);
    ThreadMoves(s, a, w);
    assert Carriers(s', w) - {a.t} == Carriers(s, w) - {a.t};
    hide Step, Carriers;
    SizeWithout(Carriers(s, w), a.t);
    SizeWithout(Carriers(s', w), a.t);
  }

  lemma ThreadMoves(s: State, a: Action, w: Waker)
    requires Enabled(s, a) && (a.FetchOr? || a.TakeCell? || a.FetchAnd? || a.Call?)
    ensures var s' := Step(s, a);
      && (forall t :: t != a.t ==> (t in s'.wakers <==> t in s.wakers))
      && (forall t :: t != a.t && t in s.wakers ==> s'.wakers[t] == s.wakers[t])
      && (a.t in Carriers(s, w) <==> a.t in s.wakers && (s.wakers[a.t] == Releasing(Some(w)) || s.wakers[a.t] == Calling(w)))
      && (a.t in Carriers(s', w) <==>
           if a.TakeCell? then s.cell == Some(w) else a.t in Carriers(s, w) && !a.Call?)
      && (a.FetchOr? || a.TakeCell? ==> a.t !in Carriers(s, w))
  {
  }

  lemma SizeWithout(ts: set<Tid>, t: Tid)
    ensures |ts| == |ts - {t}| + if t in ts then 1 else 0
  {
    if t !in ts {
      assert ts - {t} == ts;
    }
  }

  lemma {:induction false} CallsAndCopies(run: seq<Action>, w: Waker)
    requires Exec(run).Some?
    ensures Calls(run, w) + Copies(Exec(run).value, w) <= Registrations(run, w)
  {
    if run == [] {
      assert Carriers(Init(), w) == {};
    } else {
      var front := run[..|run| - 1];
      CallsAndCopies(front, w);
      CopiesMove(Exec(front).value, run[|run| - 1], w);
    }
  }

  /** Every waker is called at most once for each time it was registered: being called takes it out of the cell. */
  lemma CalledOncePerRegister(run: seq<Action>, w: Waker)
    requires Exec(run).Some?
    ensures Calls(run, w) <= Registrations(run, w)
  {
    CallsAndCopies(run, w);
  }

  /**
   The beginning has to be the compare-exchange: a fetch_or just before it takes the old cell, and
   with that the new waker is registered without ever being called.
   */
  lemma WakeBeforeTheExchangeIsNotForTheNewWaker() returns (run: seq<Action>, s: State)
    ensures Exec(run) == Some(s) && Quiet(s)
    ensures FetchOr(1) in run && Begin(5) in run
    ensures s.cell == Some(5) && !s.woken
  {
    run, s := [], Init();
    run, s := Then(run, s, FetchOr(1));
    run, s := Then(run, s, TakeCell(1));
    run, s := Then(run, s, FetchAnd(1));
    run, s := Then(run, s, Begin(5));
    run, s := Then(run, s, StoreCell);
    run, s := Then(run, s, Commit);
    assert run[0] == FetchOr(1) && run[3] == Begin(5);
  }

  lemma Then(run: seq<Action>, s: State, a: Action) returns (run': seq<Action>, s': State)
    requires Exec(run) == Some(s) && Enabled(s, a)
    ensures run' == run + [a] && s' == Step(s, a) && Exec(run') == Some(s')
  {
    run', s' := run + [a], Step(s, a);
    assert run'[..|run'| - 1] == run;
  }
}
