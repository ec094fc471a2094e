/**
 The atomic waker as a transition system: one registrar and any number of wakers, each atomic
 operation or access to the cell one step.  The two bits of the state word are `registering` and
 `waking`.  Wakers are identified by what they wake, so `will_wake` is equality.

 `register` starts with its first atomic operation.  History variables: `current` is the waker of
 the last `register`, `signalled` whether a `wake` did its fetch_or since that start, and `woken`
 whether `current` was called since then.
 */
module AtomicWaker {
  import opened Wrappers

  type Tid = nat
  type Waker = nat

  /** A thread inside `wake`; threads that are not are absent. */
  datatype WakePc =
    | Locked
    | Releasing(taken: Option<Waker>)
    | Calling(target: Waker)

  /** The registrar's place in `register`; `Panicked` stands for its failing assert or unwrap. */
  datatype RegisterPc =
    | Idle
    | Storing(waker: Waker)
    | Committing(waker: Waker)
    | Reclaiming
    | Handing(taken: Waker)
    | CallingSelf(target: Waker)
    | Panicked

  datatype State = State(
    registering: bool,
    waking: bool,
    cell: Option<Waker>,
    wakers: map<Tid, WakePc>,
    register: RegisterPc,
    current: Option<Waker>,
    signalled: bool,
    woken: bool)

  datatype Action =
    | FetchOr(t: Tid)
    | TakeCell(t: Tid)
    | FetchAnd(t: Tid)
    | Call(t: Tid)
    | Begin(waker: Waker)
    | StoreCell
    | Commit
    | Reclaim
    | SwapState
    | CallSelf

  function Init(): State {
    State(false, false, None, map[], Idle, None, false, false)
  }

  predicate Enabled(s: State, a: Action) {
    match a
    case FetchOr(t) => t !in s.wakers
    case TakeCell(t) => t in s.wakers && s.wakers[t].Locked?
    case FetchAnd(t) => t in s.wakers && s.wakers[t].Releasing?
    case Call(t) => t in s.wakers && s.wakers[t].Calling?
    case Begin(w) => s.register.Idle?
    case StoreCell => s.register.Storing?
    case Commit => s.register.Committing?
    case Reclaim => s.register.Reclaiming?
    case SwapState => s.register.Handing?
    case CallSelf => s.register.CallingSelf?
  }

  function Step(s: State, a: Action): State
    requires Enabled(s, a)
  {
    match a
    case FetchOr(t) =>
      s.(waking := true, signalled := true,
         wakers := if !s.registering && !s.waking then s.wakers[t := Locked] else s.wakers)
    case TakeCell(t) =>
      s.(cell := None, wakers := s.wakers[t := Releasing(s.cell)])
    case FetchAnd(t) =>
      s.(waking := false,
         wakers := match s.wakers[t].taken
                   case Some(w) => s.wakers[t := Calling(w)]
                   case None => s.wakers - {t})
    case Call(t) =>
      s.(woken := s.woken || s.current == Some(s.wakers[t].target), wakers := s.wakers - {t})
    case Begin(w) =>
      s.(current := Some(w), signalled := false, woken := false,
         registering := s.registering || !s.waking,
         register := if !s.registering && !s.waking then Storing(w)
                     else if !s.registering then CallingSelf(w)
                     else Idle)
    case StoreCell =>
      s.(cell := Some(s.register.waker), register := Committing(s.register.waker))
    case Commit =>
      if s.registering && !s.waking then s.(registering := false, register := Idle)
      else s.(register := if s.registering && s.waking then Reclaiming else Panicked)
    case Reclaim =>
      s.(cell := None, register := match s.cell case Some(w) => Handing(w) case None => Panicked)
    case SwapState =>
      s.(registering := false, waking := false, register := CallingSelf(s.register.taken))
    case CallSelf =>
      s.(woken := s.woken || s.current == Some(s.register.target), register := Idle)
  }

  /** The waker a step calls, if any. */
  function Called(s: State, a: Action): Option<Waker>
    requires Enabled(s, a)
  {
    match a
    case Call(t) => Some(s.wakers[t].target)
    case CallSelf => Some(s.register.target)
    case _ => None
  }

  // ----- the invariant

  predicate RegisterHolds(s: State) {
    s.register.Storing? || s.register.Committing? || s.register.Reclaiming? || s.register.Handing?
  }

  predicate Holds(s: State, t: Tid) {
    t in s.wakers && (s.wakers[t].Locked? || s.wakers[t].Releasing?)
  }

  ghost predicate SomeHolds(s: State) {
    exists t :: Holds(s, t)
  }

  /** Thread `t` took the current waker and will call it. */
  predicate Carries(s: State, t: Tid) {
    && t in s.wakers
    && s.current.Some?
    && (s.wakers[t] == Releasing(s.current) || s.wakers[t] == Calling(s.current.value))
  }

  ghost predicate SomeCarries(s: State) {
    exists t :: Carries(s, t)
  }

  /** The two bits determine who holds the cell. */
  ghost predicate BitsOk(s: State) {
    && !s.register.Panicked?
    && (s.registering <==> RegisterHolds(s))
    && (s.registering ==> !SomeHolds(s))
    && (!s.registering ==> (s.waking <==> SomeHolds(s)))
    && (forall t, u :: Holds(s, t) && Holds(s, u) ==> t == u)
    && (s.register.Reclaiming? || s.register.Handing? ==> s.waking)
    && (forall t :: t in s.wakers && s.wakers[t].Releasing? ==> s.cell.None?)
  }

  /** Where the current waker is while it is owed a call. */
  ghost predicate OwedOk(s: State) {
    match s.register
    case Idle =>
      s.current.Some? ==>
        || s.woken
        || SomeCarries(s)
        || (s.cell == s.current && (s.signalled ==> s.waking))
    case Storing(w) => s.current == Some(w) && (s.signalled ==> s.waking)
    case Committing(w) => s.current == Some(w) == s.cell && (s.signalled ==> s.waking)
    case Reclaiming => s.current.Some? && s.cell == s.current
    case Handing(w) => s.current == Some(w)
    case CallingSelf(w) => s.current == Some(w)
    case Panicked => false
  }

  ghost predicate Inv(s: State) {
    BitsOk(s) && OwedOk(s)
  }

  lemma InitInv()
    ensures Inv(Init())
  {
  }

  lemma StepBits(s: State, a: Action)
    requires Inv(s) && Enabled(s, a)
    ensures BitsOk(Step(s, a))
  {
    var s' := Step(s, a);
    match a
    case FetchOr(t) =>
      assert forall u :: u != t ==> (Holds(s, u) <==> Holds(s', u));
      if !s.registering && !s.waking {
        assert Holds(s', t);
      } else {
        assert !Holds(s', t);
      }
    case TakeCell(t) =>
      assert Holds(s, t) && Holds(s', t);
      assert forall u :: u in s.wakers && s.wakers[u].Releasing? ==> Holds(s, u);
      assert forall u :: Holds(s, u) <==> Holds(s', u);
    case FetchAnd(t) =>
      assert Holds(s, t);
      assert forall u :: Holds(s', u) ==> Holds(s, u) && u != t;
    case Call(t) =>
      assert forall u :: Holds(s, u) <==> Holds(s', u);
    case StoreCell =>
      assert forall u :: Holds(s, u) <==> Holds(s', u);
      assert forall u :: u in s.wakers && s.wakers[u].Releasing? ==> Holds(s, u);
    case _ =>
      assert forall u :: Holds(s, u) <==> Holds(s', u);
  }

  lemma StepOwed(s: State, a: Action)
    requires Inv(s) && Enabled(s, a)
    ensures OwedOk(Step(s, a))
  {
    var s' := Step(s, a);
    if s.current.Some? && s'.current == s.current && SomeCarries(s) {
      var u :| Carries(s, u);
      assert Carries(s', u) || s'.woken;
    }
    match a
    case TakeCell(t) =>
      assert Holds(s, t);
      assert s.cell == s.current && s.current.Some? ==> Carries(s', t);
    case FetchAnd(t) =>
      assert Holds(s, t);
      assert s.wakers[t].taken == s.current && s.current.Some? ==> Carries(s', t);
    case _ =>
  }

  /** The invariant is inductive. */
  lemma StepInv(s: State, a: Action)
    requires Inv(s) && Enabled(s, a)
    ensures Inv(Step(s, a))
  {
    StepBits(s, a);
    StepOwed(s, a);
  }
}
