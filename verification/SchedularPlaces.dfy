/**
 Where a task is: the places that entitle it to be queued, and the holders of its counts.  Every step
 moves at most one task between places, and at most one task between holders.
 */
module SchedularPlaces {
  import opened Wrappers
  import opened Schedular
  import Q = Queue
  import W = AtomicWaker
  import QueueRuns

  // ----- the components keep their invariants

  ghost predicate Components(s: Sys) {
    Q.Inv(s.q) && W.Inv(s.w)
  }

  lemma NotifyInv(w: W.State)
    requires W.Inv(w)
    ensures W.Inv(w.(woken := true))
  {
    var w' := w.(woken := true);
    assert forall t :: W.Holds(w, t) <==> W.Holds(w', t);
  }

  lemma OpComponents(s: Sys, u: Tid)
    requires Components(s) && OpEnabled(s, u)
    ensures Components(OpEffect(s, u))
  {
    hide Q.Inv, W.Inv, Q.Step, W.Step, Q.Enabled, W.Enabled;
    match s.ops[u]
    case Signal(_, _) => W.StepInv(s.w, W.FetchOr(u));
    case Waking(_, _) => W.StepInv(s.w, WakeAction(s, u));
    case Store(t, _) => Q.StepInv(s.q, Q.Store(u, t));
    case Push(_, _) => Q.StepInv(s.q, PushAction(s, u));
    case _ =>
  }

  lemma PopComponents(s: Sys, a: Q.Action)
    requires Components(s) && Q.Enabled(s.q, a)
    ensures Components(PopEffect(s, a))
  {
    hide Q.Inv, W.Inv, Q.Step, W.Step, Q.Enabled, W.Enabled;
    Q.StepInv(s.q, a);
    NotifyInv(s.w);
  }

  /** The queue and the atomic waker keep their invariants, whatever step the system takes. */
  lemma ComponentsStep(s: Sys, a: Action)
    requires Components(s) && Enabled(s, a)
    ensures Components(Step(s, a))
  {
    hide Q.Inv, W.Inv, Q.Step, W.Step, Q.Enabled, OpEffect, PopEffect;
    match a
    case OpStep(u) => OpComponents(s, u);
    case StartPoll(waker) => W.StepInv(s.w, W.Begin(waker));
    case RegisterStep(wa) => W.StepInv(s.w, wa);
    case PopStep(qa) => PopComponents(s, qa);
    case EndDrive(_) => NotifyInv(s.w);
    case _ =>
  }

  /** The node is in the chain from the tail on. */
  predicate InChain(q: Q.State, n: Q.Node) {
    q.pos <= |q.order| && n in q.order[q.pos..]
  }

  /** The item a step of the queue adds to it, and the one it takes out. */
  function Added(q: Q.State, a: Q.Action): Option<Q.Node> {
    if a.Swap? && a.t in q.producers then Some(q.producers[a.t].node) else None
  }

  function Taken(q: Q.State, a: Q.Action): Option<Q.Node> {
    match Q.Answered(q, a)
    case Some(Value(n)) => Some(n)
    case _ => None
  }

  /** Which items a step leaves in the queue. */
  lemma ChainStep(q: Q.State, a: Q.Action)
    requires Q.Inv(q) && Q.Enabled(q, a)
    ensures forall n: Q.Node :: n.Item? ==>
              (InChain(Q.Step(q, a), n) <==> (InChain(q, n) && Taken(q, a) != Some(n)) || Added(q, a) == Some(n))
    ensures Taken(q, a).Some? ==> InChain(q, Taken(q, a).value) && Taken(q, a).value.Item?
  {
    QueueRuns.StepOrder(q, a);
    TakenIsTail(q, a);
    ChainOrder(q, Q.Step(q, a), a);
  }

  lemma TakenIsTail(q: Q.State, a: Q.Action)
    requires Q.Inv(q) && Q.Enabled(q, a)
    ensures q.pos < |q.order| && q.order[q.pos] == q.tail && q.tail !in q.order[q.pos + 1..]
    ensures Taken(q, a).Some? ==> q.tail.Item?
    ensures Taken(q, a) == if QueueRuns.MovesTail(q, a) && q.tail.Item? then Some(q.tail) else None
  {
    Q.LoadedIsNext(q);
  }

  lemma ChainOrder(q: Q.State, q': Q.State, a: Q.Action)
    requires Q.Enabled(q, a)
    requires q.pos < |q.order| && q.order[q.pos] == q.tail && q.tail !in q.order[q.pos + 1..]
    requires Taken(q, a) == if QueueRuns.MovesTail(q, a) && q.tail.Item? then Some(q.tail) else None
    requires q'.order == q.order + QueueRuns.Appended(q, a)
    requires q'.pos == q.pos + (if QueueRuns.MovesTail(q, a) then 1 else 0)
    ensures forall n: Q.Node :: n.Item? ==>
              (InChain(q', n) <==> (InChain(q, n) && Taken(q, a) != Some(n)) || Added(q, a) == Some(n))
    ensures Taken(q, a).Some? ==> InChain(q, Taken(q, a).value) && Taken(q, a).value.Item?
  {
    assert q.order[q.pos..] == [q.tail] + q.order[q.pos + 1..];
    if QueueRuns.MovesTail(q, a) {
      assert q'.order[q'.pos..] == q.order[q.pos + 1..];
    } else {
      assert q'.order[q'.pos..] == q.order[q.pos..] + QueueRuns.Appended(q, a);
    }
  }
}
