/**
 Runs of the scheduler that show where its promises end: a count that is never given back, and a push
 from outside that leaves its task in the queue with the parent uncalled.
 */
module SchedularWitness {
  import opened Wrappers
  import opened Schedular
  import opened SchedularWake
  import opened SchedularRuns
  import opened SchedularSafety
  import opened SchedularEnd
  import Q = Queue
  import W = AtomicWaker

  lemma Extend(run: seq<Action>, s: Sys, a: Action)
    requires Exec(run) == Some(s) && Enabled(s, a)
    ensures Exec(run + [a]) == Some(Step(s, a))
  {
    assert (run + [a])[..|run + [a]| - 1] == run;
  }

  /** A step of `pop` that does not answer. */
  lemma PopOn(run: seq<Action>, s: Sys, a: Q.Action, q: Q.State)
    requires Exec(run) == Some(s) && Enabled(s, PopStep(a))
    requires Q.Answered(s.q, a).None? && Q.Step(s.q, a) == q
    ensures Exec(run + [PopStep(a)]) == Some(s.(q := q))
  {
    hide Exec;
    Extend(run, s, PopStep(a));
  }

  // ----- the queue: one item pushed, and popped again

  /** Item 1 linked behind the stub. */
  const Q1: Q.State := Q.State(Q.Item(1), Q.Stub, map[Q.Stub := Q.Item(1)], map[], Q.Outside, [Q.Stub, Q.Item(1)], 0, true)

  /** Item 1 popped, and the stub pushed behind it. */
  const Q2: Q.State := Q.State(Q.Stub, Q.Stub, map[Q.Item(1) := Q.Stub], map[], Q.Outside,
                               [Q.Stub, Q.Item(1), Q.Stub], 2, false)

  /** A waker 5 registered, and nothing signalled. */
  const W1: W.State := W.State(false, false, Some(5), map[], W.Idle, Some(5), false, false)

  /** Task 1 pushed from outside to an empty scheduler, its future running. */
  const Pushed1: Sys := Sys(Q1, W.Init(), map[1 := Task(Running, true, 3, 0)], {1}, 1, map[], {1}, map[], [], Out, {}, true,
                            false, 0, 0, History(false, true, 0, 1, 0, 0, 0, {}, false))

  /** The rest of a push by the consumer. */
  const PushSteps: seq<Action> := [OpStep(CONSUMER), OpStep(CONSUMER), OpStep(CONSUMER)]

  lemma PushOne() returns (run: seq<Action>)
    ensures Exec(run) == Some(Pushed1) && run == [PushTask(1)] + PushSteps
  {
    assert Exec([]) == Some(Init());
    hide Exec;
    Extend([], Init(), PushTask(1));
    var s1 := Step(Init(), PushTask(1));
    run := [] + [PushTask(1)];
    Extend(run, s1, OpStep(CONSUMER));
    var q2 := Q.State(Q.Stub, Q.Stub, map[], map[CONSUMER := Q.Cleared(Q.Item(1))], Q.Outside, [Q.Stub], 0, false);
    var s2 := s1.(q := q2, ops := map[CONSUMER := Push(1, New)]);
    assert Step(s1, OpStep(CONSUMER)) == s2;
    run := run + [OpStep(CONSUMER)];
    run := PushOneLinked(run, s2);
  }

  lemma PushOneLinked(before: seq<Action>, s2: Sys) returns (run: seq<Action>)
    requires Exec(before) == Some(s2)
    requires s2 == Pushed1.(
      q := Q.State(Q.Stub, Q.Stub, map[], map[CONSUMER := Q.Cleared(Q.Item(1))], Q.Outside, [Q.Stub], 0, false),
      ops := map[CONSUMER := Push(1, New)], len := 0)
    ensures Exec(run) == Some(Pushed1) && run == before + [OpStep(CONSUMER), OpStep(CONSUMER)]
  {
    hide Exec;
    Extend(before, s2, OpStep(CONSUMER));
    var q3 := Q.State(Q.Item(1), Q.Stub, map[], map[CONSUMER := Q.Swapped(Q.Item(1), Q.Stub, 1)], Q.Outside,
                      [Q.Stub, Q.Item(1)], 0, true);
    assert q3.producers[CONSUMER].Swapped?;
    assert Q.Step(s2.q, Q.Swap(CONSUMER)) == q3;
    var s3 := s2.(q := q3);
    assert Step(s2, OpStep(CONSUMER)) == s3;
    run := before + [OpStep(CONSUMER)];
    Extend(run, s3, OpStep(CONSUMER));
    assert q3.producers - {CONSUMER} == map[];
    assert Q.Step(q3, Q.Link(CONSUMER)) == Q1;
    assert Step(s3, OpStep(CONSUMER)) == Pushed1;
    run := run + [OpStep(CONSUMER)];
  }

  // ----- a poll, up to the task it pops

  /** The scheduler before any poll, with just task 1, and its entry in the queue. */
  ghost predicate Fresh(s: Sys) {
    && s.q == Q1 && s.w == W.Init() && s.all == {1} && s.ops == map[] && s.frames == [] && s.base.Out? && s.alive
    && s.hist.drained == {}
  }

  /** The same after the pop. */
  function Popped1(s: Sys): Sys {
    s.(q := Q2, w := W1, base := Got(1), iteration := 0, yielded := 0, hist := History(false, false, 1, 0, 1, 0, 0, {}, false))
  }

  /** The rest of a poll up to the first task it pops: `register`, then `pop`. */
  const PollSteps: seq<Action> := [
    RegisterStep(W.StoreCell), RegisterStep(W.Commit),
    PopStep(Q.PopLoad), PopStep(Q.PopSkip), PopStep(Q.PopHead),
    PopStep(Q.PopStubStore), PopStep(Q.PopStubSwap), PopStep(Q.PopStubLink), PopStep(Q.PopReload)]

  lemma PollPops(before: seq<Action>, s: Sys) returns (run: seq<Action>)
    requires Exec(before) == Some(s) && Fresh(s)
    ensures Exec(run) == Some(Popped1(s)) && run == before + [StartPoll(5)] + PollSteps
  {
    hide Exec;
    var s' := s.(w := W1, base := Popping, iteration := 0, yielded := 0, hist := History(false, false, 1, 0, 0, 0, 0, {}, false));
    run := PollRegisters(before, s, s');
    run := PopFirstHalf(run, s');
    run := PopSecondHalf(run, s');
  }

  lemma PollRegisters(before: seq<Action>, s: Sys, s': Sys) returns (run: seq<Action>)
    requires Exec(before) == Some(s) && Fresh(s)
    requires s' == s.(w := W1, base := Popping, iteration := 0, yielded := 0, hist := History(false, false, 1, 0, 0, 0, 0, {}, false))
    ensures Exec(run) == Some(s') && run == before + [StartPoll(5), RegisterStep(W.StoreCell), RegisterStep(W.Commit)]
  {
    hide Exec;
    Extend(before, s, StartPoll(5));
    var s1 := s'.(base := Registering, w := W.State(true, false, None, map[], W.Storing(5), Some(5), false, false));
    assert Step(s, StartPoll(5)) == s1;
    run := before + [StartPoll(5)];
    Extend(run, s1, RegisterStep(W.StoreCell));
    var s2 := s1.(w := W.State(true, false, Some(5), map[], W.Committing(5), Some(5), false, false));
    assert Step(s1, RegisterStep(W.StoreCell)) == s2;
    run := run + [RegisterStep(W.StoreCell)];
    Extend(run, s2, RegisterStep(W.Commit));
    assert Step(s2, RegisterStep(W.Commit)) == s';
    run := run + [RegisterStep(W.Commit)];
  }

  /** Item 1 is the tail, and the stub is about to be pushed behind it. */
  const QH: Q.State := Q.State(Q.Item(1), Q.Item(1), map[Q.Stub := Q.Item(1)], map[], Q.StubStore, [Q.Stub, Q.Item(1)], 1, false)

  lemma PopFirstHalf(before: seq<Action>, s: Sys) returns (run: seq<Action>)
    requires Exec(before) == Some(s) && s.q == Q1 && s.base.Popping?
    ensures Exec(run) == Some(s.(q := QH)) && run == before + [PopStep(Q.PopLoad), PopStep(Q.PopSkip), PopStep(Q.PopHead)]
  {
    hide Exec;
    PopOn(before, s, Q.PopLoad, QH.(pop := Q.Skipped));
    run := before + [PopStep(Q.PopLoad)];
    var s1 := s.(q := QH.(pop := Q.Skipped));
    PopOn(run, s1, Q.PopSkip, QH.(pop := Q.CheckHead));
    run := run + [PopStep(Q.PopSkip)];
    var s2 := s.(q := QH.(pop := Q.CheckHead));
    PopOn(run, s2, Q.PopHead, QH);
    run := run + [PopStep(Q.PopHead)];
  }

  lemma PopSecondHalf(before: seq<Action>, s: Sys) returns (run: seq<Action>)
    requires Exec(before) == Some(s.(q := QH)) && s.base.Popping?
    ensures Exec(run) == Some(s.(q := Q2, base := Got(1), hist := s.hist.(pops := s.hist.pops + 1)))
    ensures run == before + [PopStep(Q.PopStubStore), PopStep(Q.PopStubSwap), PopStep(Q.PopStubLink), PopStep(Q.PopReload)]
  {
    hide Exec;
    var q4 := QH.(next := map[], pop := Q.StubSwap);
    PopOn(before, s.(q := QH), Q.PopStubStore, q4);
    run := before + [PopStep(Q.PopStubStore)];
    var q5 := q4.(head := Q.Stub, order := [Q.Stub, Q.Item(1), Q.Stub], pop := Q.StubLink(Q.Item(1), 2));
    PopOn(run, s.(q := q4), Q.PopStubSwap, q5);
    run := run + [PopStep(Q.PopStubSwap)];
    var q6 := q5.(next := map[Q.Item(1) := Q.Stub], pop := Q.Reload);
    PopOn(run, s.(q := q5), Q.PopStubLink, q6);
    run := run + [PopStep(Q.PopStubLink)];
    Extend(run, s.(q := q6), PopStep(Q.PopReload));
    assert Q.Step(q6, Q.PopReload) == Q2;
    run := run + [PopStep(Q.PopReload)];
  }

  // ----- the count that is never given back

  /** Task 1 cancelled while its entry is in the queue. */
  const Cancelled1: Sys := Pushed1.(tasks := map[1 := Task(Cancelled, true, 2, 1)], tokens := {})

  lemma CancelOne(before: seq<Action>) returns (run: seq<Action>)
    requires Exec(before) == Some(Pushed1)
    ensures Exec(run) == Some(Cancelled1)
  {
    hide Exec;
    Extend(before, Pushed1, StartCancel(1));
    var s1 := Pushed1.(tasks := map[1 := Task(Cancelled, true, 3, 1)], tokens := {}, frames := [1]);
    assert Step(Pushed1, StartCancel(1)) == s1;
    run := before + [StartCancel(1)];
    Extend(run, s1, EndDrop);
    var s2 := s1.(frames := [], ops := map[CONSUMER := TryQueue(1, Cancel)]);
    assert Step(s1, EndDrop) == s2;
    run := run + [EndDrop];
    Extend(run, s2, OpStep(CONSUMER));
    var s3 := s2.(ops := map[CONSUMER := Release(1, Cancel)]);
    assert Step(s2, OpStep(CONSUMER)) == s3;
    run := run + [OpStep(CONSUMER)];
    Extend(run, s3, OpStep(CONSUMER));
    assert Step(s3, OpStep(CONSUMER)) == Cancelled1;
    run := run + [OpStep(CONSUMER)];
  }

  /** Task 1 is gone from everywhere, and no one can come to refer to it, but its count is 1. */
  const Leaked1: Sys := Sys(Q2, W1, map[1 := Task(Done, true, 1, 1)], {}, 0, map[], {}, map[], [], Out, {1}, true,
                            false, 0, 0, History(false, false, 1, 0, 1, 1, 0, {}, false))

  /**
   A run with a leak: a task is pushed and cancelled, and the poll that drains its entry removes it from
   the list and answers Ready; everything is idle, nobody holds the task, and one count remains.
   */
  lemma CancelledTaskLeaks() returns (run: seq<Action>)
    ensures Exec(run) == Some(Leaked1) && Idle(Leaked1)
  {
    hide Exec;
    run := PushOne();
    run := CancelOne(run);
    run := PollPops(run, Cancelled1);
    run := DrainCancelled(run);
  }

  lemma DrainCancelled(before: seq<Action>) returns (run: seq<Action>)
    requires Exec(before) == Some(Popped1(Cancelled1))
    ensures Exec(run) == Some(Leaked1)
  {
    hide Exec;
    var s1 := Leaked1.(tasks := map[1 := Task(Done, true, 2, 1)], all := {1}, len := 1, base := Removing(1, false));
    Extend(before, Popped1(Cancelled1), Dispatch);
    assert Step(Popped1(Cancelled1), Dispatch) == s1;
    run := before + [Dispatch];
    Extend(run, s1, Detach);
    assert Step(s1, Detach) == Leaked1.(base := Popping);
    run := run + [Detach];
    Extend(run, Leaked1.(base := Popping), PopStep(Q.PopLoad));
    run := run + [PopStep(Q.PopLoad)];
  }

  // ----- the entry in a queue that has gone

  /** As `Waiting1`, but task 1 gave a waker away while it was driven, and thread 1 is to push with it. */
  const Woken1: Sys := Sys(Q2, W1, map[1 := Task(Running, true, 3, 0)], {1}, 1, map[], {1}, map[1 := Store(1, Wake)], [],
                           Out, {}, true, false, 1, 0, History(true, false, 1, 0, 1, 0, 0, {}, false))

  lemma DriveGivesWaker(before: seq<Action>) returns (run: seq<Action>)
    requires Exec(before) == Some(Popped1(Pushed1))
    ensures Exec(run) == Some(Woken1.(tasks := map[1 := Task(Running, false, 3, 0)], handles := map[0 := 1], ops := map[]))
  {
    hide Exec;
    var h := History(false, false, 1, 0, 1, 0, 0, {}, false);
    var s1 := Woken1.(tasks := map[1 := Task(Running, false, 3, 0)], base := Driving(1), ops := map[], hist := h);
    Extend(before, Popped1(Pushed1), Dispatch);
    assert Step(Popped1(Pushed1), Dispatch) == s1;
    run := before + [Dispatch];
    Extend(run, s1, CloneWaker(None, 0));
    var s2 := s1.(tasks := map[1 := Task(Running, false, 4, 0)], handles := map[0 := 1]);
    assert Step(s1, CloneWaker(None, 0)) == s2;
    run := run + [CloneWaker(None, 0)];
    Extend(run, s2, EndDrive(false));
    assert Step(s2, EndDrive(false)) == s2.(base := Dropping(1, false));
    run := DriveReturns(run + [EndDrive(false)], s2);
  }

  lemma DriveReturns(before: seq<Action>, s2: Sys) returns (run: seq<Action>)
    requires s2.tasks == map[1 := Task(Running, false, 4, 0)] && s2.q == Q2 && s2.all == {1}
    requires Exec(before) == Some(s2.(base := Dropping(1, false))) && PollerTurn(s2)
    ensures Exec(run) == Some(s2.(tasks := map[1 := Task(Running, false, 3, 0)], base := Out,
                                  hist := s2.hist.(pending := true, outside := false)))
  {
    hide Exec;
    Extend(before, s2.(base := Dropping(1, false)), EndTurn);
    var s3 := s2.(tasks := map[1 := Task(Running, false, 3, 0)], base := Popping);
    assert Step(s2.(base := Dropping(1, false)), EndTurn) == s3;
    run := before + [EndTurn];
    Extend(run, s3, PopStep(Q.PopLoad));
    run := run + [PopStep(Q.PopLoad)];
  }

  lemma WakerUpgrades(before: seq<Action>) returns (run: seq<Action>)
    requires Exec(before) == Some(Woken1.(tasks := map[1 := Task(Running, false, 3, 0)], handles := map[0 := 1], ops := map[]))
    ensures Exec(run) == Some(Woken1)
  {
    hide Exec;
    var s0 := Woken1.(tasks := map[1 := Task(Running, false, 3, 0)], handles := map[0 := 1], ops := map[]);
    Extend(before, s0, StartWake(0, 1));
    var s1 := s0.(handles := map[], ops := map[1 := TryQueue(1, Wake)]);
    assert Step(s0, StartWake(0, 1)) == s1;
    run := before + [StartWake(0, 1)];
    Extend(run, s1, OpStep(1));
    var s2 := Woken1.(ops := map[1 := Upgrade(1, Wake)]);
    assert Step(s1, OpStep(1)) == s2;
    run := run + [OpStep(1)];
    Extend(run, s2, OpStep(1));
    assert Step(s2, OpStep(1)) == Woken1;
    run := run + [OpStep(1)];
  }

  /** The scheduler cleared and dropped while thread 1 is still to push; only that thread holds task 1. */
  const Dropped1: Sys := Woken1.(tasks := map[1 := Task(Done, true, 1, 1)], all := {}, len := 0, tokens := {}, alive := false,
                                 hist := History(false, false, 1, 0, 1, 0, 0, {}, true))

  lemma ClearsAndDrops(before: seq<Action>) returns (run: seq<Action>)
    requires Exec(before) == Some(Woken1)
    ensures Exec(run) == Some(Dropped1)
  {
    hide Exec;
    var h := Woken1.hist.(pending := false);
    Extend(before, Woken1, StartClear);
    var s1 := Woken1.(base := ClearList, hist := h);
    run := before + [StartClear];
    Extend(run, s1, ClearNext(1));
    var s2 := s1.(tasks := map[1 := Task(Done, true, 3, 1)], base := ClearRemoving(1));
    assert Step(s1, ClearNext(1)) == s2;
    run := run + [ClearNext(1)];
    Extend(run, s2, Detach);
    var s3 := s2.(tasks := map[1 := Task(Done, true, 2, 1)], all := {}, len := 0, base := ClearList);
    assert Step(s2, Detach) == s3;
    run := run + [Detach];
    Extend(run, s3, ClearNext(1));
    run := DrainsAndDrops(run + [ClearNext(1)], s3.(base := ClearPop));
  }

  lemma DrainsAndDrops(before: seq<Action>, s: Sys) returns (run: seq<Action>)
    requires Exec(before) == Some(s)
    requires s == Dropped1.(tasks := map[1 := Task(Done, true, 2, 1)], tokens := {1}, alive := true, base := ClearPop,
                            hist := Dropped1.hist.(cleared := false))
    ensures Exec(run) == Some(Dropped1)
  {
    hide Exec;
    Extend(before, s, PopStep(Q.PopLoad));
    var s1 := s.(base := Out, hist := Dropped1.hist);
    assert Step(s, PopStep(Q.PopLoad)) == s1;
    run := before + [PopStep(Q.PopLoad)];
    Extend(run, s1, DropSchedular);
    var s2 := s1.(alive := false);
    run := run + [DropSchedular];
    Extend(run, s2, StartCancel(1));
    var s3 := s2.(tokens := {}, ops := map[CONSUMER := Release(1, Cancel), 1 := Store(1, Wake)]);
    assert Step(s2, StartCancel(1)) == s3;
    run := run + [StartCancel(1)];
    Extend(run, s3, OpStep(CONSUMER));
    assert s3.ops - {CONSUMER} == Dropped1.ops;
    assert Step(s3, OpStep(CONSUMER)) == Dropped1;
    run := run + [OpStep(CONSUMER)];
  }

  /** Item 1 in a queue that no one holds. */
  const Q3: Q.State := Q.State(Q.Item(1), Q.Stub, map[Q.Stub := Q.Item(1)], map[], Q.Outside,
                               [Q.Stub, Q.Item(1), Q.Stub, Q.Item(1)], 2, true)

  /** Nothing and nobody refers to task 1 but that entry, and its count is 1. */
  const Stranded1: Sys := Dropped1.(q := Q3, w := W.State(false, false, None, map[], W.Idle, Some(5), true, true), ops := map[])

  lemma WakerPushes(before: seq<Action>) returns (run: seq<Action>)
    requires Exec(before) == Some(Dropped1)
    ensures Exec(run) == Some(Dropped1.(q := Q3, ops := map[1 := Signal(1, Wake)]))
  {
    hide Exec;
    Extend(before, Dropped1, OpStep(1));
    var q1 := Q2.(next := map[], producers := map[1 := Q.Cleared(Q.Item(1))]);
    assert Q2.order[Q2.pos..] == [Q.Stub];
    assert Q.Step(Q2, Q.Store(1, 1)) == q1;
    var s1 := Dropped1.(q := q1, ops := map[1 := Push(1, Wake)]);
    assert Step(Dropped1, OpStep(1)) == s1;
    run := WakerLinks(before + [OpStep(1)], s1);
  }

  lemma WakerLinks(before: seq<Action>, s1: Sys) returns (run: seq<Action>)
    requires Exec(before) == Some(s1)
    requires s1 == Dropped1.(q := Q2.(next := map[], producers := map[1 := Q.Cleared(Q.Item(1))]), ops := map[1 := Push(1, Wake)])
    ensures Exec(run) == Some(Dropped1.(q := Q3, ops := map[1 := Signal(1, Wake)]))
  {
    hide Exec;
    Extend(before, s1, OpStep(1));
    var q2 := Q.State(Q.Item(1), Q.Stub, map[], map[1 := Q.Swapped(Q.Item(1), Q.Stub, 3)], Q.Outside,
                      [Q.Stub, Q.Item(1), Q.Stub, Q.Item(1)], 2, true);
    assert q2.producers[1].Swapped?;
    assert Q.Step(s1.q, Q.Swap(1)) == q2;
    var s2 := s1.(q := q2);
    assert Step(s1, OpStep(1)) == s2;
    run := before + [OpStep(1)];
    Extend(run, s2, OpStep(1));
    assert q2.producers - {1} == map[];
    assert Q.Step(q2, Q.Link(1)) == Q3;
    assert Step(s2, OpStep(1)) == Dropped1.(q := Q3, ops := map[1 := Signal(1, Wake)]);
    run := run + [OpStep(1)];
  }

  lemma WakerWakes(before: seq<Action>) returns (run: seq<Action>)
    requires Exec(before) == Some(Dropped1.(q := Q3, ops := map[1 := Signal(1, Wake)]))
    ensures Exec(run) == Some(Stranded1)
  {
    hide Exec;
    var s0 := Dropped1.(q := Q3, ops := map[1 := Signal(1, Wake)]);
    Extend(before, s0, OpStep(1));
    var s1 := s0.(w := W.State(false, true, Some(5), map[1 := W.Locked], W.Idle, Some(5), true, false),
                  ops := map[1 := Waking(1, Wake)]);
    assert Step(s0, OpStep(1)) == s1;
    run := before + [OpStep(1)];
    Extend(run, s1, OpStep(1));
    var s2 := s1.(w := W.State(false, true, None, map[1 := W.Releasing(Some(5))], W.Idle, Some(5), true, false));
    assert Step(s1, OpStep(1)) == s2;
    run := run + [OpStep(1)];
    Extend(run, s2, OpStep(1));
    var s3 := s1.(w := W.State(false, false, None, map[1 := W.Calling(5)], W.Idle, Some(5), true, false));
    assert Step(s2, OpStep(1)) == s3;
    run := run + [OpStep(1)];
    Extend(run, s3, OpStep(1));
    assert Step(s3, OpStep(1)) == Stranded1;
    run := run + [OpStep(1)];
  }

  /**
   A run that strands an entry: a waker upgrades the queue before the scheduler is cleared and dropped, and
   pushes after that. All is idle in the end, no one holds the task and nothing was drained as cancelled,
   but the entry lies in a queue that has gone, and the count is 1.
   */
  lemma LateWakerStrands() returns (run: seq<Action>)
    ensures Exec(run) == Some(Stranded1) && Idle(Stranded1)
    ensures Forgotten(Stranded1, 1) && Stranded(Stranded1, 1) && Stranded1.tasks[1].count == 1 && Stranded1.leaked == {}
  {
    hide Exec;
    run := PushOne();
    run := PollPops(run, Pushed1);
    run := DriveGivesWaker(run);
    run := WakerUpgrades(run);
    run := ClearsAndDrops(run);
    run := WakerPushes(run);
    run := WakerWakes(run);
    assert Q3.order[Q3.pos..] == [Q.Stub, Q.Item(1)];
  }

  // ----- the push that tells nobody

  /** A poll drove task 1 and answered Pending; its waker was not called, and all is idle. */
  const Waiting1: Sys := Sys(Q2, W1, map[1 := Task(Running, false, 2, 0)], {1}, 1, map[], {1}, map[], [], Out, {}, true,
                             false, 1, 0, History(true, false, 1, 0, 1, 0, 0, {}, false))

  lemma PollWaits() returns (run: seq<Action>)
    ensures Exec(run) == Some(Waiting1)
  {
    hide Exec;
    run := PushOne();
    run := PollPops(run, Pushed1);
    run := DriveWaits(run);
  }

  lemma DriveWaits(before: seq<Action>) returns (run: seq<Action>)
    requires Exec(before) == Some(Popped1(Pushed1))
    ensures Exec(run) == Some(Waiting1)
  {
    hide Exec;
    var s1 := Waiting1.(tasks := map[1 := Task(Running, false, 3, 0)], base := Driving(1),
                        hist := History(false, false, 1, 0, 1, 0, 0, {}, false));
    Extend(before, Popped1(Pushed1), Dispatch);
    assert Step(Popped1(Pushed1), Dispatch) == s1;
    run := before + [Dispatch];
    Extend(run, s1, EndDrive(false));
    assert Step(s1, EndDrive(false)) == s1.(base := Dropping(1, false));
    run := run + [EndDrive(false)];
    Extend(run, s1.(base := Dropping(1, false)), EndTurn);
    var s3 := Waiting1.(base := Popping, hist := s1.hist);
    assert Step(s1.(base := Dropping(1, false)), EndTurn) == s3;
    run := run + [EndTurn];
    Extend(run, s3, PopStep(Q.PopLoad));
    run := run + [PopStep(Q.PopLoad)];
  }

  /**
   A run in which a poll answers Pending, a task is then pushed from outside, and in the end all is idle
   with that task in the queue, while the waker of the poll has not been called.
   */
  lemma OutsidePushTellsNobody() returns (run: seq<Action>, s: Sys)
    ensures Exec(run) == Some(s) && Idle(s) && HasEntry(s) && s.hist.pending && s.hist.outside
    ensures s.w.current == Some(5) && !s.w.woken
  {
    hide Exec, HasEntry, Inv, PushStep;
    run := PollWaits();
    RunInv(run);
    var created, stored, swapped, done := PushFromOutsideIsSilent(Waiting1, 2);
    Extend(run, Waiting1, PushTask(2));
    run := run + [PushTask(2)];
    run := ThenPushes(run, created, stored);
    run := ThenPushes(run, stored, swapped);
    run := ThenPushes(run, swapped, done);
    s := done;
  }

  lemma ThenPushes(before: seq<Action>, s: Sys, s': Sys) returns (run: seq<Action>)
    requires Exec(before) == Some(s) && PushStep(s, s')
    ensures Exec(run) == Some(s')
  {
    hide Exec, Step, Enabled;
    Extend(before, s, OpStep(CONSUMER));
    run := before + [OpStep(CONSUMER)];
  }
}
