/**
 The queue as the object it is: `Push` and `Pop` update `head`, `tail` and the `next` pointers in
 place.  Between any two atomic operations of a call the other threads may take any number of steps
 (`Interfere`), so the contracts hold under every interleaving.
 */
module QueueObject {
  import opened Wrappers
  import opened Queue
  import QueueRuns

  class MpscQueue {
    var head: Node
    var tail: Node
    var next: map<Node, Node>
    var producers: map<Tid, PushPc>  // where the other threads are inside their pushes
    var pop: PopPc                   // where the consumer is inside its pop
    var order: seq<Node>             // history: the nodes swapped into head
    var pos: nat                     // history: where in it the tail is
    var overlap: bool                // history: a producer was mid-push during this pop
    ghost var run: seq<Action>       // history: all steps so far

    ghost function View(): State
      reads this
    {
      State(head, tail, next, producers, pop, order, pos, overlap)
    }

    ghost predicate Valid()
      reads this
    {
      Inv(View()) && QueueRuns.Exec(run) == Some(View())
    }

    constructor ()
      ensures Valid() && View() == Init() && run == []
    {
      head, tail, next, producers := Stub, Stub, map[], map[];
      pop, order, pos, overlap := Outside, [Stub], 0, false;
      run := [];
      new;
      InitInv();
    }

    /** The atomic operation `a`, in place. */
    method Apply(a: Action)
      requires Valid() && Enabled(View(), a)
      modifies this
      ensures Valid() && View() == old(Step(View(), a)) && run == old(run) + [a]
    {
      hide Inv, QueueRuns.Exec;
      StepInv(View(), a);
      QueueRuns.Extend(run, View(), a);
      var s := Step(State(head, tail, next, producers, pop, order, pos, overlap), a);
      head, tail, next, producers := s.head, s.tail, s.next, s.producers;
      pop, order, pos, overlap := s.pop, s.order, s.pos, s.overlap;
      run := run + [a];
    }

    /** Any number of steps of the threads other than `me`; `None` is the consumer. */
    method Interfere(me: Option<Tid>)
      requires Valid()
      modifies this
      ensures Valid() && Rely(me, old(View()), View()) && old(run) <= run
    {
      var steps: nat := *;
      while steps > 0
        invariant Valid() && Rely(me, old(View()), View()) && old(run) <= run
      {
        var a: Action := *;
        if Enabled(State(head, tail, next, producers, pop, order, pos, overlap), a) && Actor(a) != me {
          RelyStep(me, old(View()), View(), a);
          Apply(a);
        }
        steps := steps - 1;
      }
    }

    /**
     Pushes item `id` for thread `t`: afterwards the item was swapped in once during the call, and
     no link of this push is outstanding.
     */
    method Push(t: Tid, id: nat)
      requires Valid() && t !in producers && Free(View(), Item(id))
      modifies this
      ensures old(run) <= run
      ensures Valid() && t !in producers && old(order) <= order
      ensures exists i :: |old(order)| <= i < |order| && order[i] == Item(id)
    {
      hide Inv, QueueRuns.Exec, Free, Popped, Step, Enabled;
      ClearNext(t, id);
      Interfere(Some(t));
      ghost var at := SwapHead(t);
      Interfere(Some(t));
      LinkPrevious(t);
      assert order[at] == Item(id);
    }

    method ClearNext(t: Tid, id: nat)
      requires Valid() && t !in producers && Free(View(), Item(id))
      modifies this
      ensures old(run) <= run
      ensures Valid() && t in producers && producers[t] == Cleared(Item(id)) && order == old(order)
    {
      Apply(Store(t, id));
    }

    method SwapHead(t: Tid) returns (ghost at: nat)
      requires Valid() && t in producers && producers[t].Cleared?
      modifies this
      ensures old(run) <= run
      ensures Valid() && t in producers && producers[t].Swapped?
      ensures at == |old(order)| && order == old(order) + [old(producers[t].node)]
    {
      at := |order|;
      Apply(Swap(t));
    }

    method LinkPrevious(t: Tid)
      requires Valid() && t in producers && producers[t].Swapped?
      modifies this
      ensures old(run) <= run
      ensures Valid() && t !in producers && order == old(order)
    {
      Apply(Link(t));
    }

    /**
     Pops for the consumer, with the answer of the last step taken.  A value is the oldest pending item
     and is free again; `Empty` with items pending, and `Inconsistant`, only happen when a producer was
     mid-push during the call.
     */
    method Pop() returns (r: Answer)
      requires Valid() && pop == Outside
      modifies this
      ensures old(run) <= run
      ensures Valid() && pop == Outside && old(order) <= order
      ensures Popped(View()) == old(Popped(View())) + (if r.Value? && r.node.Item? then [r.node.id] else [])
      ensures AnswerOk(r, View()) && JustAnswered(run, r)
    {
      hide Inv, QueueRuns.Exec, Popped, AnswerOk, JustAnswered, Step, Enabled;
      Interfere(None);
      var cur := tail;
      var following := LoadAt(cur, PopLoad);
      if cur == Stub {
        if following.None? {
          return Empty;
        }
        cur := following.value;
        Interfere(None);
        following := LoadAt(cur, PopSkip);
      }
      if following.Some? {
        return Value(cur);
      }
      Interfere(None);
      var same := HeadIs(cur);
      if !same {
        return Inconsistent;
      }
      r := PopLast(cur);
    }

    /** The end of `Pop`: pushes the stub behind what looked like the last node, and looks again. */
    method PopLast(cur: Node) returns (r: Answer)
      requires Valid() && pop == StubStore && cur == tail
      modifies this
      ensures old(run) <= run
      ensures Valid() && pop == Outside && old(order) <= order
      ensures Popped(View()) == old(Popped(View())) + (if r.Value? && r.node.Item? then [r.node.id] else [])
      ensures AnswerOk(r, View()) && JustAnswered(run, r)
    {
      hide Inv, QueueRuns.Exec, Popped, AnswerOk, JustAnswered, Step, Enabled;
      PushStub();
      Interfere(None);
      var following := LoadAt(cur, PopReload);
      if following.Some? {
        return Value(cur);
      }
      return Empty;
    }

    /** Loads the next pointer of the tail, and moves the tail on if there is one. */
    method LoadAt(cur: Node, a: Action) returns (following: Option<Node>)
      requires Valid() && cur == tail && pop == At(a)
        && a in {PopLoad, PopSkip, PopReload}
      modifies this
      ensures old(run) <= run
      ensures Valid() && old(order) <= order
      ensures following.Some? ==> tail == following.value
      ensures following.None? ==> tail == cur
      ensures pop == if a == PopLoad && cur == Stub then (if following.Some? then Skipped else Outside)
                     else if following.None? && a != PopReload then CheckHead else Outside
      ensures Popped(View()) == old(Popped(View())) + (if following.Some? && cur.Item? then [cur.id] else [])
      ensures pop == Outside && following.Some? ==> AnswerOk(Value(cur), View()) && JustAnswered(run, Value(cur))
      ensures pop == Outside && following.None? ==> AnswerOk(Empty, View()) && JustAnswered(run, Empty)
    {
      hide Inv, QueueRuns.Exec, Popped, Free, Pending, MidPush;
      following := if cur in next then Some(next[cur]) else None;
      PopStep(View(), a);
      if pop != Outside { TailIsItem(View()); }
      AnswersNow(run, View(), a);
      hide JustAnswered;
      Apply(a);
    }

    /** Whether the head is still the consumer's tail. */
    method HeadIs(cur: Node) returns (same: bool)
      requires Valid() && cur == tail && pop == CheckHead
      modifies this
      ensures old(run) <= run
      ensures Valid() && old(order) <= order && tail == cur
      ensures pop == if same then StubStore else Outside
      ensures Popped(View()) == old(Popped(View()))
      ensures !same ==> AnswerOk(Inconsistent, View()) && JustAnswered(run, Inconsistent)
    {
      hide Inv, QueueRuns.Exec, Popped, Free, Pending, MidPush;
      same := head == cur;
      PopStep(View(), PopHead);
      AnswersNow(run, View(), PopHead);
      hide JustAnswered;
      Apply(PopHead);
    }

    /** The consumer pushes the stub, like any node. */
    method PushStub()
      requires Valid() && pop == StubStore
      modifies this
      ensures old(run) <= run
      ensures Valid() && pop == Reload && tail == old(tail) && old(order) <= order
      ensures Popped(View()) == old(Popped(View()))
    {
      hide Inv, QueueRuns.Exec, Popped, Pending, Free, MidPush;
      Interfere(None);
      PopStep(View(), PopStubStore);
      Apply(PopStubStore);
      Interfere(None);
      PopStep(View(), PopStubSwap);
      Apply(PopStubSwap);
      Interfere(None);
      PopStep(View(), PopStubLink);
      Apply(PopStubLink);
    }
  }

  /** The place in `pop` where the tail's next pointer is loaded. */
  function At(a: Action): PopPc {
    match a
    case PopSkip => Skipped
    case PopReload => Reload
    case _ => Outside
  }

  /** The thread a step belongs to; `None` is the consumer. */
  function Actor(a: Action): Option<Tid> {
    match a
    case Store(t, _) => Some(t)
    case Swap(t) => Some(t)
    case Link(t) => Some(t)
    case _ => None
  }

  /** The items popped so far, oldest first. */
  ghost function Popped(s: State): seq<nat> {
    if s.pos <= |s.order| then Items(s.order[..s.pos]) else []
  }

  /**
   What an answer tells: a value is an item that is free again; `Empty` with items pending, and
   `Inconsistant`, only come from a producer mid-push during the call.
   */
  ghost predicate AnswerOk(r: Answer, s: State) {
    s.pos <= |s.order| &&
    match r
    case Value(n) => n.Item? && Free(s, n)
    case Empty => Pending(s) != [] ==> s.overlap
    case Inconsistent => s.overlap
  }

  /** The last step of the run completed a pop with this answer. */
  ghost predicate JustAnswered(run: seq<Action>, r: Answer) {
    run != [] &&
    var front, a := run[..|run| - 1], run[|run| - 1];
    && QueueRuns.Exec(front).Some? && Enabled(QueueRuns.Exec(front).value, a)
    && Answered(QueueRuns.Exec(front).value, a) == Some(r)
  }

  lemma AnswersNow(run: seq<Action>, s: State, a: Action)
    requires QueueRuns.Exec(run) == Some(s) && Enabled(s, a)
    ensures Answered(s, a).Some? ==> JustAnswered(run + [a], Answered(s, a).value)
  {
    assert (run + [a])[..|run + [a]| - 1] == run;
  }

  lemma TailIsItem(s: State)
    requires Inv(s) && s.pop != Outside
    ensures s.tail.Item?
  {
  }

  /** What a thread can rely on while it is not running: its own place and the past stay as they are. */
  ghost predicate Rely(me: Option<Tid>, s: State, s': State) {
    && s.order <= s'.order
    && (me.None? ==> s'.tail == s.tail && s'.pos == s.pos && s'.pop == s.pop && Popped(s') == Popped(s))
    && (me.Some? && me.value in s.producers ==> me.value in s'.producers && s'.producers[me.value] == s.producers[me.value])
    && (me.Some? && me.value !in s.producers ==> me.value !in s'.producers)
  }

  lemma RelyStep(me: Option<Tid>, s0: State, s: State, a: Action)
    requires Inv(s) && Rely(me, s0, s) && Enabled(s, a) && Actor(a) != me
    ensures Rely(me, s0, Step(s, a))
  {
    if me.None? {
      assert Step(s, a).order[..s.pos] == s.order[..s.pos];
    }
  }

  /** What the consumer's own steps do to the popped items. */
  lemma PopStepItems(s: State, a: Action)
    requires Inv(s) && Enabled(s, a) && Actor(a).None?
    ensures s.order <= Step(s, a).order
    ensures Popped(Step(s, a)) == Popped(s) + QueueRuns.AnsweredItems(s, a)
  {
    LoadedIsNext(s);
    QueueRuns.StepOrder(s, a);
    QueueRuns.AnswerIsTail(s, a);
    PoppedFromOrder(s, Step(s, a), a);
  }

  lemma PoppedFromOrder(s: State, s': State, a: Action)
    requires s.pos < |s.order| && s.order[s.pos] == s.tail && s.order <= s'.order
    requires s'.pos == s.pos + (if QueueRuns.MovesTail(s, a) then 1 else 0)
    ensures Popped(s') == Popped(s) + if QueueRuns.MovesTail(s, a) then Items([s.tail]) else []
  {
    var moved := if QueueRuns.MovesTail(s, a) then [s.tail] else [];
    assert s'.order[..s'.pos] == s.order[..s.pos] + moved;
    ItemsAppend(s.order[..s.pos], moved);
  }

  /** What the consumer's own steps answer. */
  lemma PopStep(s: State, a: Action)
    requires Inv(s) && Enabled(s, a) && Actor(a).None?
    ensures Inv(Step(s, a)) && s.order <= Step(s, a).order
    ensures Popped(Step(s, a)) == Popped(s) + QueueRuns.AnsweredItems(s, a)
    ensures Answered(s, a).Some? ==> AnswerOk(Answered(s, a).value, Step(s, a))
  {
    PopStepItems(s, a);
    StepInv(s, a);
    if Answered(s, a).Some? {
      QueueRuns.AnswersExplained(s, a);
      if Answered(s, a).value.Value? {
        QueueRuns.PoppedNodeIsFree(s, a);
      }
      MidPushOf(s, Step(s, a));
    }
  }
}
