/**
 The atomic waker as the object it is: `Register`, `Take` and `Wake` update the state word and the
 cell in place, and between any two atomic operations the other threads may take any number of
 steps.
 */
module AtomicWakerObject {
  import opened Wrappers
  import opened AtomicWaker
  import AtomicWakerRuns

  class WakerCell {
    var registering: bool
    var waking: bool
    var cell: Option<Waker>
    var wakers: map<Tid, WakePc>     // where the other threads are inside `wake`
    var register: RegisterPc         // where the registrar is inside `register`
    var current: Option<Waker>       // history: the waker of the last `register`
    var signalled: bool              // history: a fetch_or happened since it began
    var woken: bool                  // history: it was called since then
    ghost var run: seq<Action>       // history: all steps so far

    ghost function View(): State
      reads this
    {
      State(registering, waking, cell, wakers, register, current, signalled, woken)
    }

    ghost predicate Valid()
      reads this
    {
      Inv(View()) && AtomicWakerRuns.Exec(run) == Some(View())
    }

    constructor ()
      ensures Valid() && View() == Init() && run == []
    {
      registering, waking, cell, wakers := false, false, None, map[];
      register, current, signalled, woken := Idle, None, false, false;
      run := [];
      new;
      InitInv();
    }

    /** The atomic operation or cell access `a`, in place. */
    method Apply(a: Action)
      requires Valid() && Enabled(View(), a)
      modifies this
      ensures Valid() && View() == old(Step(View(), a)) && run == old(run) + [a]
    {
      hide Inv, AtomicWakerRuns.Exec;
      StepInv(View(), a);
      ghost var _, _ := AtomicWakerRuns.Then(run, View(), a);
      var s := Step(State(registering, waking, cell, wakers, register, current, signalled, woken), a);
      registering, waking, cell, wakers := s.registering, s.waking, s.cell, s.wakers;
      register, current, signalled, woken := s.register, s.current, s.signalled, s.woken;
      run := run + [a];
    }

    /** Any number of steps of the threads other than `me`; `None` is the registrar. */
    method Interfere(me: Option<Tid>)
      requires Valid()
      modifies this
      ensures Valid() && Rely(me, old(View()), View()) && old(run) <= run && Of(me, old(run), run)
    {
      hide Inv, AtomicWakerRuns.Exec;
      var steps: nat := *;
      while steps > 0
        invariant Valid() && Rely(me, old(View()), View()) && old(run) <= run && Of(me, old(run), run)
      {
        var a: Action := *;
        if Enabled(State(registering, waking, cell, wakers, register, current, signalled, woken), a) && Actor(a) != me {
          Apply(a);
        }
        steps := steps - 1;
      }
    }

    /**
     Registers `w`.  Afterwards `w` was called since the call began, or a thread took it and will call
     it, or it sits in the cell and any signal since the call began is still held by a waking thread
     that will take it.
     */
    method Register(w: Waker)
      requires Valid() && register.Idle?
      modifies this
      ensures Valid() && register.Idle? && current == Some(w)
      ensures woken || SomeCarries(View()) || (cell == Some(w) && (signalled ==> SomeHolds(View())))
      ensures Began(old(run), run, w)
    {
      hide Inv, AtomicWakerRuns.Exec;
      RegistrarIdle(View());
      Apply(Begin(w));
      if register.Storing? {
        StoreAndRelease(w);
      }
      if register.Reclaiming? {
        WakeReclaimed();
      } else if register.CallingSelf? {
        // a wake holds the cell: call the waker instead of storing it
        CallOwn();
      } else {
        IdleOwes(View());
      }
    }

    /** Stores the waker in the cell, and tries to release the lock. */
    method StoreAndRelease(w: Waker)
      requires Valid() && register == Storing(w) && current == Some(w)
      modifies this
      ensures NoBegin(old(run), run)
      ensures Valid() && (register.Idle? || register.Reclaiming?) && current == Some(w) == cell
      ensures if register.Idle? then !registering && !waking else registering && waking
    {
      hide Inv, AtomicWakerRuns.Exec;
      Interfere(None);
      Apply(StoreCell);
      Interfere(None);
      CommitSeesBits(View());
      Apply(Commit);
    }

    /** Someone signalled meanwhile: takes the waker back out, unlocks, and calls it. */
    method WakeReclaimed()
      requires Valid() && register.Reclaiming?
      modifies this
      ensures NoBegin(old(run), run)
      ensures Valid() && register.Idle? && current == old(current) && woken && cell.None?
    {
      hide Inv, AtomicWakerRuns.Exec;
      Interfere(None);
      ReclaimFindsWaker(View());
      Apply(Reclaim);
      Interfere(None);
      Apply(SwapState);
      CallOwn();
    }

    /** Calls the waker the registrar holds, which is the one it registers. */
    method CallOwn()
      requires Valid() && register.CallingSelf?
      modifies this
      ensures NoBegin(old(run), run)
      ensures Valid() && register.Idle? && current == old(current) && woken && (old(cell).None? ==> cell.None?)
    {
      hide Inv, AtomicWakerRuns.Exec;
      Interfere(None);
      CallsCurrent(View());
      Apply(CallSelf);
    }

    /** Signals for thread `t`, and takes the waker if no other thread is at the cell. */
    method Take(t: Tid) returns (taken: Option<Waker>)
      requires Valid() && t !in wakers
      modifies this
      ensures Valid() && old(run) + [FetchOr(t)] <= run
      ensures match taken
              case None => t !in wakers
              case Some(w) => t in wakers && wakers[t] == Calling(w)
    {
      hide Inv, AtomicWakerRuns.Exec;
      Apply(FetchOr(t));
      if t !in wakers {
        return None;
      }
      Interfere(Some(t));
      Apply(TakeCell(t));
      taken := wakers[t].taken;
      Interfere(Some(t));
      Apply(FetchAnd(t));
    }

    /** Wakes whatever is registered, for thread `t`. */
    method Wake(t: Tid)
      requires Valid() && t !in wakers
      modifies this
      ensures Valid() && t !in wakers && old(run) + [FetchOr(t)] <= run
      ensures TakenIsCalled(old(run), run, t)
    {
      hide Inv, AtomicWakerRuns.Exec;
      var taken := Take(t);
      if taken.Some? {
        Interfere(Some(t));
        Apply(Call(t));
      }
      TakenWasCalled(old(run), run, t);
    }
  }

  /** The thread a step belongs to; `None` is the registrar. */
  function Actor(a: Action): Option<Tid> {
    match a
    case FetchOr(t) => Some(t)
    case TakeCell(t) => Some(t)
    case FetchAnd(t) => Some(t)
    case Call(t) => Some(t)
    case _ => None
  }

  /** The steps since then begin with that of this `register`, and no other began. */
  ghost predicate Began(before: seq<Action>, run: seq<Action>, w: Waker) {
    && before + [Begin(w)] <= run
    && forall i :: |before| < i < |run| ==> !run[i].Begin?
  }

  /** The run went on without a new `register`. */
  ghost predicate NoBegin(before: seq<Action>, run: seq<Action>) {
    before <= run && forall i :: |before| <= i < |run| ==> !run[i].Begin?
  }

  /** Whatever waker thread `t` got hold of since then, it has called. */
  ghost predicate TakenIsCalled(before: seq<Action>, run: seq<Action>, t: Tid) {
    forall j, w :: |before| <= j <= |run| && Got(run[..j], t, w) ==> CalledAfter(run, j, t, w)
  }

  /** After these steps the thread has the waker at hand. */
  ghost predicate Got(run: seq<Action>, t: Tid, w: Waker) {
    var s := AtomicWakerRuns.Exec(run);
    s.Some? && AtomicWakerRuns.CallingNow(s.value, t, w)
  }

  ghost predicate CalledAfter(run: seq<Action>, j: nat, t: Tid, w: Waker) {
    exists k :: j <= k && AtomicWakerRuns.CallsAt(run, k, w) && run[k] == Call(t)
  }

  lemma TakenWasCalled(before: seq<Action>, run: seq<Action>, t: Tid)
    requires AtomicWakerRuns.Exec(run).Some? && t !in AtomicWakerRuns.Exec(run).value.wakers
    ensures TakenIsCalled(before, run, t)
  {
    forall j, w | |before| <= j <= |run| && Got(run[..j], t, w)
      ensures CalledAfter(run, j, t, w)
    {
      AtomicWakerRuns.CallingIsCalled(run, j, t, w);
    }
  }

  /** None of the steps since then are by `me`. */
  ghost predicate Of(me: Option<Tid>, before: seq<Action>, run: seq<Action>) {
    forall i :: |before| <= i < |run| ==> Actor(run[i]) != me
  }

  /** What a thread can rely on while it is not running. */
  ghost predicate Rely(me: Option<Tid>, s: State, s': State) {
    && (me.None? ==>
         && s'.register == s.register && s'.current == s.current
         && (s.woken ==> s'.woken) && (s.cell.None? ==> s'.cell.None?))
    && (me.Some? && me.value in s.wakers ==> me.value in s'.wakers && s'.wakers[me.value] == s.wakers[me.value])
    && (me.Some? && me.value !in s.wakers ==> me.value !in s'.wakers)
  }

  /** With a single registrar, `register` never meets another one. */
  lemma RegistrarIdle(s: State)
    requires Inv(s) && s.register.Idle?
    ensures !s.registering
  {
  }

  /** A failed release sees both bits. */
  lemma CommitSeesBits(s: State)
    requires Inv(s) && s.register.Committing?
    ensures s.registering && s.current == Some(s.register.waker) == s.cell
  {
  }

  lemma ReclaimFindsWaker(s: State)
    requires Inv(s) && s.register.Reclaiming?
    ensures s.cell.Some? && s.cell == s.current
  {
  }

  lemma CallsCurrent(s: State)
    requires Inv(s) && s.register.CallingSelf?
    ensures s.current == Some(s.register.target)
  {
  }

  lemma IdleOwes(s: State)
    requires Inv(s) && s.register.Idle? && s.current.Some?
    ensures s.woken || SomeCarries(s) || (s.cell == s.current && (s.signalled ==> SomeHolds(s)))
  {
  }
}
