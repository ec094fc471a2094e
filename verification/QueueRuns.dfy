/**
 What the queue promises over whole runs: any interleaving of the atomic steps of any number of
 producers with those of the consumer.
 */
module QueueRuns {
  import opened Wrappers
  import opened Queue

  /** The state a run of steps reaches, if every step was enabled when taken. */
  ghost function Exec(run: seq<Action>): Option<State> {
    if run == [] then Some(Init())
    else
      var before := Exec(run[..|run| - 1]);
      var a := run[|run| - 1];
      if before.Some? && Enabled(before.value, a) then Some(Step(before.value, a)) else None
  }

  /** The items swapped into the head during a run, in the order of the swaps. */
  ghost function SwappedIn(run: seq<Action>): seq<nat> {
    if run == [] then []
    else
      var before := Exec(run[..|run| - 1]);
      var a := run[|run| - 1];
      SwappedIn(run[..|run| - 1]) +
      if before.Some? && Enabled(before.value, a) then SwappedItems(before.value, a) else []
  }

  /** The items `pop` answered during a run, in order. */
  ghost function PoppedOut(run: seq<Action>): seq<nat> {
    if run == [] then []
    else
      var before := Exec(run[..|run| - 1]);
      var a := run[|run| - 1];
      PoppedOut(run[..|run| - 1]) +
      if before.Some? then AnsweredItems(before.value, a) else []
  }

  function AnsweredItems(s: State, a: Action): seq<nat> {
    match Answered(s, a)
    case Some(Value(n)) => if n.Item? then [n.id] else []
    case _ => []
  }

  lemma {:induction false} RunInv(run: seq<Action>)
    requires Exec(run).Some?
    ensures Inv(Exec(run).value)
  {
    if run == [] {
      InitInv();
    } else {
      RunInv(run[..|run| - 1]);
      StepInv(Exec(run[..|run| - 1]).value, run[|run| - 1]);
    }
  }

  // ----- what one step does to the abstract queue

  /** What a step appends to the history of head swaps, and whether it moves the tail. */
  lemma StepOrder(s: State, a: Action)
    requires Enabled(s, a)
    ensures Step(s, a).order == s.order + Appended(s, a)
    ensures Step(s, a).pos == s.pos + (if MovesTail(s, a) then 1 else 0)
  {
  }

  /** `pop` answers the tail exactly when the tail moves off an item. */
  lemma AnswerIsTail(s: State, a: Action)
    requires Enabled(s, a) && PopNotAtStub(s)
    ensures AnsweredItems(s, a) == if MovesTail(s, a) then Items([s.tail]) else []
  {
    assert Items([s.tail]) == if s.tail.Item? then [s.tail.id] else [];
  }

  predicate PopNotAtStub(s: State) {
    s.pop != Outside ==> s.tail != Stub
  }

  function Appended(s: State, a: Action): seq<Node>
    requires Enabled(s, a)
  {
    if a.Swap? then [s.producers[a.t].node] else if a.PopStubSwap? then [Stub] else []
  }

  predicate MovesTail(s: State, a: Action) {
    a in {PopLoad, PopSkip, PopReload} && Load(s, s.tail).Some?
  }

  /** The item a step adds to the abstract queue. */
  function SwappedItems(s: State, a: Action): seq<nat>
    requires Enabled(s, a)
  {
    if a.Swap? && s.producers[a.t].node.Item? then [s.producers[a.t].node.id] else []
  }

  /** A step that answers a value takes the first pending item, a swap adds one, the rest change nothing. */
  lemma StepPending(s: State, a: Action)
    requires Inv(s) && Enabled(s, a)
    ensures Inv(Step(s, a))
    ensures Pending(s) + SwappedItems(s, a) == AnsweredItems(s, a) + Pending(Step(s, a))
  {
    StepInv(s, a);
    StepOrder(s, a);
    AnswerIsTail(s, a);
    LoadedIsNext(s);
    PendingFromOrder(s, Step(s, a), a);
  }

  lemma PendingFromOrder(s: State, s': State, a: Action)
    requires Enabled(s, a) && s.pos < |s.order| && s.order[s.pos] == s.tail
    requires s'.order == s.order + Appended(s, a)
    requires s'.pos == s.pos + (if MovesTail(s, a) then 1 else 0) <= |s.order|
    requires AnsweredItems(s, a) == if MovesTail(s, a) then Items([s.tail]) else []
    ensures Pending(s) + SwappedItems(s, a) == AnsweredItems(s, a) + Pending(s')
  {
    var moved := if MovesTail(s, a) then [s.tail] else [];
    assert s.order[s.pos..] + Appended(s, a) == moved + s'.order[s'.pos..];
    ItemsAppend(s.order[s.pos..], Appended(s, a));
    ItemsAppend(moved, s'.order[s'.pos..]);
    assert Items(Appended(s, a)) == SwappedItems(s, a);
  }

  lemma FifoStep(popped: seq<nat>, swapped: seq<nat>, s: State, a: Action)
    requires Inv(s) && Enabled(s, a) && popped + Pending(s) == swapped
    ensures Inv(Step(s, a))
    ensures popped + AnsweredItems(s, a) + Pending(Step(s, a)) == swapped + SwappedItems(s, a)
  {
    StepPending(s, a);
    calc {
      popped + AnsweredItems(s, a) + Pending(Step(s, a));
      popped + (AnsweredItems(s, a) + Pending(Step(s, a)));
      popped + (Pending(s) + SwappedItems(s, a));
      popped + Pending(s) + SwappedItems(s, a);
    }
  }

  /**
   Nothing is lost, duplicated or reordered: in every run the items popped, followed by the items
   still pending, are exactly the items swapped in, in the order of the swaps.
   */
  lemma {:induction false} Fifo(run: seq<Action>)
    requires Exec(run).Some?
    ensures Exec(run).value.pos <= |Exec(run).value.order|
    ensures PoppedOut(run) + Pending(Exec(run).value) == SwappedIn(run)
  {
    RunInv(run);
    if run == [] {
      assert Items([Stub]) == [];
    } else {
      var front, a := run[..|run| - 1], run[|run| - 1];
      Fifo(front);
      RunInv(front);
      FifoStep(PoppedOut(front), SwappedIn(front), Exec(front).value, a);
    }
  }

  // ----- what an answer tells

  /**
   A node returned by `pop` is a free item: not in the chain, not being pushed, and the target of no
   outstanding link, so it can be pushed again at once.
   */
  lemma PoppedNodeIsFree(s: State, a: Action)
    requires Inv(s) && Enabled(s, a)
    requires Answered(s, a).Some? && Answered(s, a).value.Value?
    ensures Inv(Step(s, a))
    ensures var n := Answered(s, a).value.node;
            && n.Item?
            && Free(Step(s, a), n)
            && forall t :: t in s.producers && s.producers[t].Swapped? ==> s.producers[t].prev != n
  {
    StepInv(s, a);
    var s' := Step(s, a);
    var n := s.tail;
    assert s.order[s.pos] == n && s'.pos == s.pos + 1 && s'.order == s.order;
    assert n !in s'.order[s'.pos..];
    forall t | t in s.producers
      ensures s.producers[t].node != n
      ensures s.producers[t].Swapped? ==> s.producers[t].prev != n
    {
      assert ProducerOk(s, s.producers[t]) && ProducerOk(s', s.producers[t]);
    }
  }

  /** A node that is not in the chain is the target of no outstanding link. */
  lemma OutOfChain(s: State, n: Node)
    requires Inv(s) && n !in s.order[s.pos..]
    ensures forall t :: t in s.producers && s.producers[t].Swapped? ==> s.producers[t].node != n && s.producers[t].prev != n
  {
    forall t | t in s.producers && s.producers[t].Swapped?
      ensures s.producers[t].node != n && s.producers[t].prev != n
    {
      assert ProducerOk(s, s.producers[t]);
      assert s.order[s.producers[t].at] in s.order[s.pos..];
      assert s.order[s.producers[t].at - 1] in s.order[s.pos..];
    }
  }

  /** The same for the stub: while it is not in the chain, nobody refers to it. */
  lemma SkippedStubIsFree(s: State)
    requires Inv(s) && Stub !in s.order[s.pos..]
    ensures StubIsFree(s)
  {
    OutOfChain(s, Stub);
    forall t | t in s.producers
      ensures s.producers[t].node != Stub
    {
      assert ProducerOk(s, s.producers[t]);
    }
  }

  /** The stub is not in the chain, is being pushed by no producer, and is where no link is outstanding. */
  ghost predicate StubIsFree(s: State) {
    && s.pos <= |s.order| && Stub !in s.order[s.pos..]
    && forall t :: t in s.producers ==>
      s.producers[t].node != Stub && (s.producers[t].Swapped? ==> s.producers[t].prev != Stub)
  }

  /** At these places of `pop` the stub is out of the chain. */
  lemma StubIsOut(s: State)
    requires Inv(s) && s.pop in {Skipped, StubStore, StubSwap}
    ensures Stub !in s.order[s.pos..]
  {
  }

  /** The tail moving off the stub takes it out of the chain. */
  lemma StubIsLeft(s: State, a: Action)
    requires Inv(s) && Enabled(s, a) && s.tail == Stub && MovesTail(s, a)
    ensures Stub !in Step(s, a).order[Step(s, a).pos..]
  {
    StepOrder(s, a);
    LoadedIsNext(s);
    assert s.order[s.pos] == Stub;
  }

  /** Only the consumer's own swap of the stub brings it back. */
  lemma StubStaysOut(s: State, a: Action)
    requires Inv(s) && Enabled(s, a) && Stub !in s.order[s.pos..] && !a.PopStubSwap?
    ensures Stub !in Step(s, a).order[Step(s, a).pos..]
  {
  }

  /** One step of what follows. */
  lemma StubStep(s: State, a: Action, left: bool)
    requires Inv(s) && Enabled(s, a)
    requires if left then !a.PopStubSwap? && Stub !in s.order[s.pos..] else s.tail == Stub && MovesTail(s, a)
    ensures StubIsFree(Step(s, a))
  {
    StepInv(s, a);
    if left {
      StubStaysOut(s, a);
    } else {
      StubIsLeft(s, a);
    }
    hide Step, Inv, MovesTail;
    SkippedStubIsFree(Step(s, a));
  }

  /**
   Over runs: once the tail has moved off the stub, and until the consumer swaps the stub in again, the
   stub is not in the chain and nobody refers to it, in that pop and between pops.
   */
  lemma {:induction false} StubIsFreeUntilPushed(run: seq<Action>, i: nat)
    requires Exec(run).Some? && i < |run| && LeftStubAt(run, i) && NoStubSwap(run, i)
    ensures StubIsFree(Exec(run).value)
  {
    var front, a := run[..|run| - 1], run[|run| - 1];
    RunInv(front);
    assert Exec(front).Some? && Enabled(Exec(front).value, a) && Exec(run).value == Step(Exec(front).value, a);
    StubBefore(run, i);
    hide Exec, Step, Enabled, Inv, LeftStubAt, NoStubSwap;
    if i < |front| {
      StubIsFreeUntilPushed(front, i);
    }
    var s := Exec(front).value;
    assert i < |front| ==> Stub !in s.order[s.pos..];
    hide StubIsFree;
    StubStep(s, a, i < |front|);
  }

  /** Step `i` of the run moves the tail off the stub. */
  ghost predicate LeftStubAt(run: seq<Action>, i: nat)
    requires i < |run|
  {
    var s := Exec(run[..i]);
    s.Some? && s.value.tail == Stub && MovesTail(s.value, run[i])
  }

  predicate NoStubSwap(run: seq<Action>, i: nat)
    requires i <= |run|
  {
    forall j :: i <= j < |run| ==> !run[j].PopStubSwap?
  }

  lemma StubBefore(run: seq<Action>, i: nat)
    requires i < |run| && LeftStubAt(run, i) && NoStubSwap(run, i)
    ensures var front, a := run[..|run| - 1], run[|run| - 1];
      if i < |front| then LeftStubAt(front, i) && NoStubSwap(front, i) && !a.PopStubSwap?
      else Exec(front).Some? && Exec(front).value.tail == Stub && MovesTail(Exec(front).value, a)
  {
    hide Exec;
    var front := run[..|run| - 1];
    assert run[..i] == front[..i];
    assert i == |front| ==> front[..i] == front;
  }

  /** Any node, the stub included, is in the chain at most once. */
  lemma ChainHasNoDuplicates(s: State, i: nat, j: nat)
    requires Inv(s) && i < |s.order| - s.pos && j < |s.order| - s.pos
    requires s.order[s.pos..][i] == s.order[s.pos..][j]
    ensures i == j
  {
    assert s.order[s.pos..][i] == s.order[s.pos + i] && s.order[s.pos..][j] == s.order[s.pos + j];
  }

  /**
   `Empty` with items pending means that a producer is mid-push at that very step, and
   `Inconsistant` that one was at some point of this pop.
   */
  lemma AnswersExplained(s: State, a: Action)
    requires Inv(s) && Enabled(s, a)
    requires Answered(s, a).Some?
    ensures Inv(Step(s, a))
    ensures Answered(s, a).value == Empty && Pending(Step(s, a)) != [] ==> MidPush(s)
    ensures Answered(s, a).value == Inconsistent ==> Step(s, a).overlap
  {
    StepInv(s, a);
    LoadedIsNext(s);
    if Answered(s, a).value == Empty {
      if s.pos + 1 == |s.order| {
        assert s.order[s.pos..] == [Stub];
        assert Items([Stub]) == [];
      } else {
        assert Outstanding(s, s.pos);
      }
    }
  }

  /** A producer has swapped a node in behind `n` and did not link it yet. */
  ghost predicate CutBehind(s: State, n: Node) {
    exists t :: t in s.producers && s.producers[t].Swapped? && s.producers[t].prev == n
  }

  /**
   Exactly when `Empty` is wrong: items are pending after that answer if and only if the link that is
   missing is the one behind the very tail of the consumer.
   */
  lemma EmptyIsWrongExactly(s: State, a: Action)
    requires Inv(s) && Enabled(s, a) && Answered(s, a) == Some(Empty)
    ensures Inv(Step(s, a))
    ensures Pending(Step(s, a)) != [] <==> CutBehind(s, s.tail)
  {
    StepInv(s, a);
    LoadedIsNext(s);
    if s.pos + 1 == |s.order| {
      assert s.order[s.pos..] == [s.tail];
      assert Items([Stub]) == [];
      forall t | t in s.producers && s.producers[t].Swapped?
        ensures s.producers[t].prev != s.tail
      {
        assert ProducerOk(s, s.producers[t]);
      }
    } else {
      assert Outstanding(s, s.pos);
      LaterIsPending(s);
    }
  }

  lemma LaterIsPending(s: State)
    requires Inv(s) && s.pos + 1 < |s.order|
    ensures Pending(s) != []
  {
    var n := if s.tail == Stub then s.order[s.pos + 1] else s.tail;
    assert s.order[s.pos] != s.order[s.pos + 1];
    assert n in s.order[s.pos..];
    ItemsMembers(s.order[s.pos..], n.id);
  }

  /** `Inconsistant` is answered exactly when the head is looked at and a node is behind the consumer's tail. */
  lemma InconsistentExactly(s: State, a: Action)
    requires Inv(s) && Enabled(s, a)
    ensures Answered(s, a) == Some(Inconsistent) <==> s.pop == CheckHead && a == PopHead && s.pos + 1 < |s.order|
  {
    assert s.pos + 1 < |s.order| ==> s.order[s.pos] != s.order[|s.order| - 1];
  }

  /** The recorded overlap is real: some producer was mid-push at a state since the pop began. */
  lemma {:induction false} OverlapWitness(run: seq<Action>) returns (k: nat)
    requires Exec(run).Some? && Exec(run).value.overlap
    ensures k <= |run| && PopLoad !in run[k..]
    ensures Exec(run[..k]).Some? && MidPush(Exec(run[..k]).value)
  {
    OverlapBack(run);
    hide Exec, MidPush;
    if MidPush(Exec(run).value) {
      k := |run|;
      assert run[..k] == run;
    } else {
      var front, a := run[..|run| - 1], run[|run| - 1];
      k := OverlapWitness(front);
      OneLonger(front, a, k);
      assert run == front + [a];
    }
  }

  lemma OneLonger(front: seq<Action>, a: Action, k: nat)
    requires k <= |front|
    ensures (front + [a])[k..] == front[k..] + [a] && (front + [a])[..k] == front[..k]
  {
  }

  lemma OverlapBack(run: seq<Action>)
    requires Exec(run).Some? && Exec(run).value.overlap
    ensures MidPush(Exec(run).value) ||
            (run != [] && run[|run| - 1] != PopLoad && var before := Exec(run[..|run| - 1]); before.Some? && before.value.overlap)
  {
    if run != [] {
      OverlapStep(Exec(run[..|run| - 1]).value, run[|run| - 1]);
    }
    hide Step, Enabled, MidPush;
  }

  lemma OverlapStep(s: State, a: Action)
    requires Enabled(s, a) && Step(s, a).overlap
    ensures MidPush(Step(s, a)) || (a != PopLoad && s.overlap)
  {
  }

  ghost predicate MidPushSince(run: seq<Action>, k: nat) {
    k <= |run| && PopLoad !in run[k..] && Exec(run[..k]).Some? && MidPush(Exec(run[..k]).value)
  }

  /**
   Over runs: if the step `a` completes a pop that answers `Inconsistant`, or `Empty` while items
   are pending, then some producer was between its swap and its link during that pop; without such
   a producer `Empty` means that the abstract queue is empty.
   */
  lemma EmptyMeansEmpty(run: seq<Action>, a: Action)
    requires Exec(run + [a]).Some?
    ensures Exec(run).Some? && Inv(Exec(run + [a]).value)
    ensures var answer := Answered(Exec(run).value, a);
            answer == Some(Inconsistent) || (answer == Some(Empty) && Pending(Exec(run + [a]).value) != [])
            ==> exists k :: MidPushSince(run + [a], k)
  {
    var all := run + [a];
    assert all[..|all| - 1] == run;
    RunInv(run);
    RunInv(all);
    var s := Exec(run).value;
    if Answered(s, a).Some? {
      AnswersExplained(s, a);
      if Answered(s, a).value == Inconsistent || (Answered(s, a).value == Empty && Pending(Step(s, a)) != []) {
        if MidPush(s) {
          MidPushOf(s, Step(s, a));
        }
        var k := OverlapWitness(all);
        assert MidPushSince(all, k);
      }
    }
  }

  lemma Extend(run: seq<Action>, s: State, a: Action)
    requires Exec(run) == Some(s) && Enabled(s, a)
    ensures Exec(run + [a]) == Some(Step(s, a))
  {
    assert (run + [a])[..|run + [a]| - 1] == run;
  }

  /** Producer 1 swapped item 7 into the head and did not link it yet. */
  lemma HalfPushed() returns (r2: seq<Action>, s2: State)
    ensures Exec(r2) == Some(s2) && |r2| == 2
    ensures s2 == State(Item(7), Stub, map[], map[1 := Swapped(Item(7), Stub, 1)], Outside, [Stub, Item(7)], 0, true)
  {
    assert Exec([]) == Some(Init());
    hide Exec;
    Extend([], Init(), Store(1, 7));
    var s1 := State(Stub, Stub, map[], map[1 := Cleared(Item(7))], Outside, [Stub], 0, false);
    assert Step(Init(), Store(1, 7)) == s1;
    var r1 := [Store(1, 7)];
    assert [] + r1 == r1;

    s2 := State(Item(7), Stub, map[], map[1 := Swapped(Item(7), Stub, 1)], Outside, [Stub, Item(7)], 0, true);
    StepsTo(r1, s1, Swap(1), s2);
    r2 := r1 + [Swap(1)];
  }

  /**
   The overlap matters: here producer 1 swapped item 7 but did not link it, producer 2 then completed
   its push of item 8, and a whole pop answers `Empty` although 8 is in the queue.
   */
  lemma EmptyDespiteCompletedPush() returns (run: seq<Action>, s: State)
    ensures Exec(run) == Some(s)
    ensures Swap(2) in run && Link(2) in run && 2 !in s.producers
    ensures Answered(s, PopLoad) == Some(Empty)
    ensures s.pos <= |s.order| && Pending(s) == [7, 8]
  {
    hide Exec;
    var r2, s2 := HalfPushed();

    var s3 := s2.(producers := s2.producers[2 := Cleared(Item(8))]);
    StepsTo(r2, s2, Store(2, 8), s3);
    var r3 := r2 + [Store(2, 8)];

    var s4 := s3.(head := Item(8), order := s3.order + [Item(8)],
                  producers := s2.producers[2 := Swapped(Item(8), Item(7), 2)]);
    assert s3.producers[2 := Swapped(Item(8), Item(7), 2)] == s4.producers;
    StepsTo(r3, s3, Swap(2), s4);
    var r4 := r3 + [Swap(2)];

    s := s4.(next := map[Item(7) := Item(8)], producers := s2.producers);
    assert s4.producers - {2} == s2.producers;
    StepsTo(r4, s4, Link(2), s);
    run := r4 + [Link(2)];
    assert run[3] == Swap(2) && run[4] == Link(2);
    assert s.order == [Stub, Item(7), Item(8)];
    assert Items([Stub, Item(7), Item(8)]) == [7, 8];
  }

  /** A run in which `pop` answers `Inconsistant`: item 7 is in the queue, item 8 swapped in and not linked. */
  lemma InconsistentAnswered() returns (run: seq<Action>, s: State)
    ensures Exec(run) == Some(s) && s.pop == CheckHead
    ensures Answered(s, PopHead) == Some(Inconsistent)
    ensures s.pos <= |s.order| && Pending(s) == [7, 8]
  {
    hide Exec;
    var r2, s2 := HalfPushed();

    var s3 := s2.(next := map[Stub := Item(7)], producers := map[]);
    assert s2.producers - {1} == map[];
    StepsTo(r2, s2, Link(1), s3.(overlap := true));
    var r3 := r2 + [Link(1)];

    var s5, r5 := SecondSwapped(r3, s3);
    var s6 := s5.(tail := Item(7), pos := 1, pop := Skipped);
    assert s6.producers[2].Swapped? && Effect(s5, PopLoad) == s6;
    assert Step(s5, PopLoad) == s6;
    Extend(r5, s5, PopLoad);
    var r6 := r5 + [PopLoad];
    s := s6.(pop := CheckHead);
    assert Step(s6, PopSkip) == s;
    Extend(r6, s6, PopSkip);
    run := r6 + [PopSkip];
    assert s.order[s.pos..] == [Item(7), Item(8)];
    assert Items([Item(7), Item(8)]) == [7, 8];
  }

  lemma SecondSwapped(run: seq<Action>, s3: State) returns (s5: State, run': seq<Action>)
    requires Exec(run) == Some(s3)
    requires s3 == State(Item(7), Stub, map[Stub := Item(7)], map[], Outside, [Stub, Item(7)], 0, true)
    ensures Exec(run') == Some(s5)
    ensures s5 == State(Item(8), Stub, map[Stub := Item(7)], map[2 := Swapped(Item(8), Item(7), 2)], Outside,
                        [Stub, Item(7), Item(8)], 0, true)
  {
    hide Exec;
    var s4 := s3.(producers := map[2 := Cleared(Item(8))]);
    StepsTo(run, s3, Store(2, 8), s4);
    var r4 := run + [Store(2, 8)];
    s5 := State(Item(8), Stub, map[Stub := Item(7)], map[2 := Swapped(Item(8), Item(7), 2)], Outside,
                [Stub, Item(7), Item(8)], 0, true);
    StepsTo(r4, s4, Swap(2), s5);
    run' := r4 + [Swap(2)];
  }

  lemma StepsTo(run: seq<Action>, s: State, a: Action, s': State)
    requires Exec(run) == Some(s)
    requires Enabled(s, a)
    requires Effect(s, a).(overlap := s'.overlap) == s'
    requires a.Store? || a.Swap? || a.Link?
    requires s'.overlap && (s.overlap || (1 in s'.producers && s'.producers[1].Swapped?))
    ensures Exec(run + [a]) == Some(s')
  {
    Extend(run, s, a);
  }
}
