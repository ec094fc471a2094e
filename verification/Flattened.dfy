/**
 The flattened loop: tasks that wait on each other kept on a stack, of which only the top is driven.
 It computes what direct recursion computes, activation by activation.
 */
module Flattened {
  import opened Wrappers
  import opened Programs

  /** A task: not yet polled, or waiting on its run, with the place where the result of that run goes. */
  datatype Frame<S, !V> = Fresh(s: S) | Waiting(next: V -> S, place: Option<V>) {
    predicate Blocked() { Waiting? && place.None? }
    /** The state a poll would run. */
    function About(): S
      requires !Blocked()
    {
      if Fresh? then s else next(place.value)
    }
  }

  /** The tasks, the root first, and the place for the result of the root. */
  datatype Machine<S, !V> = Machine(frames: seq<Frame<S, V>>, result: Option<V>)

  ghost predicate AllBlocked<S, V>(fs: seq<Frame<S, V>>) {
    forall i :: 0 <= i < |fs| ==> fs[i].Blocked()
  }

  /** All tasks wait on the one above them, and the top can run; the result is there only at the end. */
  ghost predicate Coherent<S, V>(m: Machine<S, V>) {
    && (m.frames != [] ==> !Top(m).Blocked() && AllBlocked(Below(m)))
    && (m.result.None? <==> m.frames != [])
  }

  function Top<S, V>(m: Machine<S, V>): Frame<S, V>
    requires m.frames != []
  {
    m.frames[|m.frames| - 1]
  }

  function Below<S, V>(m: Machine<S, V>): seq<Frame<S, V>>
    requires m.frames != []
  {
    m.frames[..|m.frames| - 1]
  }

  /** A value handed to the task, or the place, below. */
  ghost function Return<S, V>(below: seq<Frame<S, V>>, v: V): Machine<S, V>
    requires AllBlocked(below)
  {
    if below == [] then Machine([], Some(v))
    else
      var k := |below| - 1;
      Machine(below[..k] + [Waiting(below[k].next, Some(v))], None)
  }

  /** A task on top of others that wait. */
  ghost function Begin<S, V>(below: seq<Frame<S, V>>, top: Frame<S, V>): (m: Machine<S, V>)
    requires AllBlocked(below) && !top.Blocked()
    ensures Coherent(m) && m.frames != [] && Top(m) == top && Below(m) == below
  {
    var m := Machine(below + [top], None);
    assert Below(m) == below;
    m
  }

  /** One poll of the top. */
  ghost function Drive<S, V>(code: S -> Act<S, V>, m: Machine<S, V>): (m': Machine<S, V>)
    requires Coherent(m) && m.frames != []
    ensures Coherent(m')
  {
    match code(Top(m).About())
    case Done(v) => Return(Below(m), v)
    case Call(child, next) =>
      var m' := Machine(Below(m) + [Waiting(next, None), Fresh(child)], None);
      assert Below(m') == Below(m) + [Waiting(next, None)];
      m'
    case Wait(later) => Begin(Below(m), Fresh(later))
  }

  /** Up to `n` polls; nothing happens once the last task has gone. */
  ghost function Run<S, V>(code: S -> Act<S, V>, m: Machine<S, V>, n: nat): (m': Machine<S, V>)
    requires Coherent(m)
    ensures Coherent(m')
    decreases n
  {
    if n == 0 || m.frames == [] then m else Run(code, Drive(code, m), n - 1)
  }

  lemma {:induction false} RunPlus<S, V>(code: S -> Act<S, V>, m: Machine<S, V>, a: nat, b: nat)
    requires Coherent(m)
    ensures Run(code, m, a + b) == Run(code, Run(code, m, a), b)
    decreases a
  {
    hide Drive, Coherent;
    if a > 0 && m.frames != [] {
      RunPlus(code, Drive(code, m), a - 1, b);
    } else if m.frames == [] {
      assert Run(code, m, a) == m;
    }
  }

  /** The machine is about to make this visit. */
  ghost predicate AtVisit<S, V>(m: Machine<S, V>, x: Visit<S>) {
    && |m.frames| == x.depth && m.frames != []
    && !Top(m).Blocked() && Top(m).About() == x.s
  }

  /** The polls from `m` make these visits, one each. */
  ghost predicate Makes<S, V>(code: S -> Act<S, V>, m: Machine<S, V>, vs: seq<Visit<S>>)
    requires Coherent(m)
  {
    forall k :: 0 <= k < |vs| ==> AtVisit(Run(code, m, k), vs[k])
  }

  /** One poll, then the visits of the run, then those of what follows it. */
  lemma {:induction false} MakesInTurn<S, V>(code: S -> Act<S, V>, m: Machine<S, V>, x: Visit<S>, cs: seq<Visit<S>>, rs: seq<Visit<S>>)
    requires Coherent(m) && AtVisit(m, x)
    requires var c := Drive(code, m); Makes(code, c, cs) && Makes(code, Run(code, c, |cs|), rs)
    ensures Makes(code, m, [x] + cs + rs)
    ensures Run(code, m, 1 + |cs| + |rs|) == Run(code, Run(code, Drive(code, m), |cs|), |rs|)
  {
    FirstVisit(code, m, x);
    hide AtVisit, Drive, Coherent, Run, Makes, MakesAt, AllMadeFrom;
    RunInTurn(code, m, |cs|, |rs|);
    ChildVisits(code, m, cs);
    RestVisits(code, m, |cs|, rs);
    MakesConcat(code, m, x, cs, rs);
  }

  lemma {:induction false} FirstVisit<S, V>(code: S -> Act<S, V>, m: Machine<S, V>, x: Visit<S>)
    requires Coherent(m) && AtVisit(m, x)
    ensures m.frames != [] && MakesAt(code, m, 0, x)
  {
    RunFirst(code, m, 0);
  }

  lemma {:induction false} RunInTurn<S, V>(code: S -> Act<S, V>, m: Machine<S, V>, a: nat, b: nat)
    requires Coherent(m) && m.frames != []
    ensures Run(code, m, 1 + a + b) == Run(code, Run(code, Drive(code, m), a), b)
  {
    hide Drive, Coherent, Run;
    RunFirst(code, m, 1 + a + b);
    RunPlus(code, Drive(code, m), a, b);
  }

  lemma {:induction false} ChildVisits<S, V>(code: S -> Act<S, V>, m: Machine<S, V>, cs: seq<Visit<S>>)
    requires Coherent(m) && m.frames != [] && Makes(code, Drive(code, m), cs)
    ensures AllMadeFrom(code, m, 1, cs)
  {
    hide AtVisit, Drive, Coherent, Run, Makes;
    forall k: nat | k < |cs|
      ensures MakesAt(code, m, 1 + k, cs[k])
    {
      VisitOfChild(code, m, cs, k);
    }
  }

  lemma {:induction false} RestVisits<S, V>(code: S -> Act<S, V>, m: Machine<S, V>, n: nat, rs: seq<Visit<S>>)
    requires Coherent(m) && m.frames != [] && Makes(code, Run(code, Drive(code, m), n), rs)
    ensures AllMadeFrom(code, m, 1 + n, rs)
  {
    hide AtVisit, Drive, Coherent, Run, Makes;
    forall j: nat | j < |rs|
      ensures MakesAt(code, m, 1 + n + j, rs[j])
    {
      VisitOfRest(code, m, n, rs, j);
    }
  }

  ghost predicate MakesAt<S, V>(code: S -> Act<S, V>, m: Machine<S, V>, k: nat, x: Visit<S>)
    requires Coherent(m)
  {
    AtVisit(Run(code, m, k), x)
  }

  ghost predicate AllMadeFrom<S, V>(code: S -> Act<S, V>, m: Machine<S, V>, n: nat, vs: seq<Visit<S>>)
    requires Coherent(m)
  {
    forall k: nat :: k < |vs| ==> MakesAt(code, m, n + k, vs[k])
  }

  lemma {:induction false} MakesConcat<S, V>(code: S -> Act<S, V>, m: Machine<S, V>, x: Visit<S>, cs: seq<Visit<S>>, rs: seq<Visit<S>>)
    requires Coherent(m) && MakesAt(code, m, 0, x)
    requires AllMadeFrom(code, m, 1, cs) && AllMadeFrom(code, m, 1 + |cs|, rs)
    ensures Makes(code, m, [x] + cs + rs)
  {
    var vs := [x] + cs + rs;
    assert vs[0] == x;
    assert forall k :: 1 <= k < 1 + |cs| ==> vs[k] == cs[k - 1];
    assert forall k :: 1 + |cs| <= k < |vs| ==> vs[k] == rs[k - 1 - |cs|];
    hide AtVisit, Coherent, Run, Makes;
    forall k: nat | k < |vs|
      ensures MakesAt(code, m, k, vs[k])
    {
      if 0 < k <= |cs| {
        assert MakesAt(code, m, 1 + (k - 1), cs[k - 1]);
      } else if k > |cs| {
        assert MakesAt(code, m, 1 + |cs| + (k - 1 - |cs|), rs[k - 1 - |cs|]);
      }
    }
    MakesAll(code, m, vs);
  }

  lemma {:induction false} MakesAll<S, V>(code: S -> Act<S, V>, m: Machine<S, V>, vs: seq<Visit<S>>)
    requires Coherent(m) && forall k: nat :: k < |vs| ==> MakesAt(code, m, k, vs[k])
    ensures Makes(code, m, vs)
  {
    forall k | 0 <= k < |vs|
      ensures AtVisit(Run(code, m, k), vs[k])
    {
      assert MakesAt(code, m, k, vs[k]);
    }
    hide AtVisit, Coherent, Run;
  }

  lemma {:induction false} MakesOne<S, V>(code: S -> Act<S, V>, m: Machine<S, V>, vs: seq<Visit<S>>, k: nat)
    requires Coherent(m) && Makes(code, m, vs) && k < |vs|
    ensures AtVisit(Run(code, m, k), vs[k])
  {
  }

  lemma {:induction false} VisitOfChild<S, V>(code: S -> Act<S, V>, m: Machine<S, V>, cs: seq<Visit<S>>, k: nat)
    requires Coherent(m) && m.frames != [] && Makes(code, Drive(code, m), cs) && k < |cs|
    ensures AtVisit(Run(code, m, k + 1), cs[k])
  {
    hide AtVisit, Drive, Coherent, Run, Makes;
    MakesOne(code, Drive(code, m), cs, k);
    RunFirst(code, m, k + 1);
  }

  lemma {:induction false} VisitOfRest<S, V>(code: S -> Act<S, V>, m: Machine<S, V>, n: nat, rs: seq<Visit<S>>, j: nat)
    requires Coherent(m) && m.frames != [] && Makes(code, Run(code, Drive(code, m), n), rs) && j < |rs|
    ensures AtVisit(Run(code, m, 1 + n + j), rs[j])
  {
    hide AtVisit, Drive, Coherent, Run, Makes;
    MakesOne(code, Run(code, Drive(code, m), n), rs, j);
    RunPlus(code, Drive(code, m), n, j);
    RunFirst(code, m, 1 + n + j);
  }

  /** A call polls its top into the run. */
  lemma {:induction false} CallIsDriven<S, V>(code: S -> Act<S, V>, below: seq<Frame<S, V>>, top: Frame<S, V>)
    requires AllBlocked(below) && !top.Blocked() && code(top.About()).Call?
    ensures var act := code(top.About()); var w := Waiting(act.next, None);
      AllBlocked(below + [w]) && Drive(code, Begin(below, top)) == Begin(below + [w], Fresh(act.child))
  {
    var act := code(top.About());
    var w := Waiting(act.next, None);
    assert below + [w] + [Fresh(act.child)] == below + [w, Fresh(act.child)];
  }

  /** And the run hands its value back. */
  lemma {:induction false} CallAndReturn<S, V>(code: S -> Act<S, V>, below: seq<Frame<S, V>>, top: Frame<S, V>, v: V)
    requires AllBlocked(below) && !top.Blocked() && code(top.About()).Call?
    ensures var act := code(top.About()); var w := Waiting(act.next, None);
      AllBlocked(below + [w]) && Return(below + [w], v) == Begin(below, Waiting(act.next, Some(v)))
  {
    assert (below + [Waiting(code(top.About()).next, None)])[..|below|] == below;
  }

  /** The top of the stack makes exactly the visits of its recursion and then hands its value down. */
  lemma {:induction false} TreeIsRun<S, V>(code: S -> Act<S, V>, t: Tree<S, V>, below: seq<Frame<S, V>>, top: Frame<S, V>)
    requires AllBlocked(below) && !top.Blocked() && top.About() == t.s && t.Unfolds(code)
    ensures var vs := t.Visits(|below| + 1); var m := Begin(below, top);
      Run(code, m, |vs|) == Return(below, t.Value()) && Makes(code, m, vs)
    decreases t
  {
    var m := Begin(below, top);
    match t
    case Leaf(s, v) =>
      assert Run(code, m, 1) == Run(code, Drive(code, m), 0);
    case Node(s, child, rest) =>
      var w := Waiting(code(s).next, None);
      CallIsDriven(code, below, top);
      TreeIsRun(code, child, below + [w], Fresh(child.s));
      TreeIsRun(code, rest, below, Waiting(code(s).next, Some(child.Value())));
      CallInTurn(code, t, below, top);
    case Pause(s, rest) =>
      TreeIsRun(code, rest, below, Fresh(rest.s));
      WaitInTurn(code, t, below, top);
  }

  /** A call: one poll, then the run, and then what follows it. */
  lemma {:induction false} CallInTurn<S, V>(code: S -> Act<S, V>, t: Tree<S, V>, below: seq<Frame<S, V>>, top: Frame<S, V>)
    requires AllBlocked(below) && !top.Blocked() && top.About() == t.s && t.Unfolds(code) && t.Node?
    requires AllBlocked(below + [Waiting(code(t.s).next, None)])
    requires var w := Waiting(code(t.s).next, None); var c := Begin(below + [w], Fresh(t.child.s));
      var cs := t.child.Visits(|below| + 2);
      Run(code, c, |cs|) == Return(below + [w], t.child.Value()) && Makes(code, c, cs)
    requires var r := Begin(below, Waiting(code(t.s).next, Some(t.child.Value()))); var rs := t.rest.Visits(|below| + 1);
      Run(code, r, |rs|) == Return(below, t.Value()) && Makes(code, r, rs)
    ensures var vs := t.Visits(|below| + 1); var m := Begin(below, top);
      Run(code, m, |vs|) == Return(below, t.Value()) && Makes(code, m, vs)
  {
    var m := Begin(below, top);
    var x, cs, rs := Visit(|below| + 1, t.s), t.child.Visits(|below| + 2), t.rest.Visits(|below| + 1);
    assert AtVisit(m, x);
    assert t.Visits(|below| + 1) == [x] + cs + rs;
    assert code(top.About()).Call? && code(top.About()).child == t.child.s && t.Value() == t.rest.Value();
    hide Drive, Return, Coherent, Run, AllBlocked, Makes, t.Visits, t.Value, t.Unfolds, AtVisit;
    CallIsDriven(code, below, top);
    CallAndReturn(code, below, top, t.child.Value());
    MakesInTurn(code, m, x, cs, rs);
  }

  /** A wait: one poll, and then what follows it. */
  lemma {:induction false} WaitInTurn<S, V>(code: S -> Act<S, V>, t: Tree<S, V>, below: seq<Frame<S, V>>, top: Frame<S, V>)
    requires AllBlocked(below) && !top.Blocked() && top.About() == t.s && t.Unfolds(code) && t.Pause?
    requires var c := Begin(below, Fresh(t.rest.s));
      Run(code, c, |t.rest.Visits(|below| + 1)|) == Return(below, t.Value()) && Makes(code, c, t.rest.Visits(|below| + 1))
    ensures var vs := t.Visits(|below| + 1); var m := Begin(below, top);
      Run(code, m, |vs|) == Return(below, t.Value()) && Makes(code, m, vs)
  {
    var m := Begin(below, top);
    var x, rs := Visit(|below| + 1, t.s), t.rest.Visits(|below| + 1);
    assert AtVisit(m, x);
    assert Drive(code, m) == Begin(below, Fresh(t.rest.s));
    assert t.Visits(|below| + 1) == [x] + [] + rs;
    assert Run(code, Drive(code, m), 0) == Drive(code, m);
    hide Drive, Return, Coherent, Run, AllBlocked, t.Visits, t.Value, t.Unfolds, AtVisit;
    assert Makes(code, Drive(code, m), []);
    MakesInTurn(code, m, x, [], rs);
  }

  /**
   The flattened loop refines direct recursion: it makes the same activations in the same order, each
   at a stack depth that is the depth of the recursion, and ends with the same value.
   */
  lemma {:induction false} LoopRefinesRecursion<S, V>(code: S -> Act<S, V>, fuel: nat, s: S)
    requires Recurse(code, fuel, s, 1).Some?
    ensures var o := Recurse(code, fuel, s, 1).value; var m := Begin([], Fresh(s));
      && Run(code, m, |o.visits|) == Machine([], Some(o.v))
      && Makes(code, m, o.visits)
  {
    TreeIsRun(code, TreeOf(code, fuel, s, 1), [], Fresh(s));
  }

  /** A loop that ends was driving a recursion that ends. */
  lemma {:induction false} RunIsTree<S, V>(code: S -> Act<S, V>, below: seq<Frame<S, V>>, top: Frame<S, V>, n: nat)
    returns (t: Tree<S, V>)
    requires AllBlocked(below) && !top.Blocked()
    requires Run(code, Begin(below, top), n).frames == []
    ensures t.s == top.About() && t.Unfolds(code) && |t.Visits(|below| + 1)| <= n
    decreases n
  {
    hide Drive, Coherent, Return, Makes, AllBlocked, Run;
    var m := Begin(below, top);
    var s := top.About();
    RunFirst(code, m, n);
    match code(s)
    case Done(v) =>
      t := Leaf(s, v);
    case Call(child, next) =>
      var w := Waiting(next, None);
      OneMoreBlocked(below, w);
      CallIsDriven(code, below, top);
      var t1 := RunIsTree(code, below + [w], Fresh(child), n - 1);
      TreeIsRun(code, t1, below + [w], Fresh(child));
      var a := |t1.Visits(|below| + 2)|;
      var w' := Waiting(next, Some(t1.Value()));
      CallAndReturn(code, below, top, t1.Value());
      RunPlus(code, Begin(below + [w], Fresh(child)), a, n - 1 - a);
      var t2 := RunIsTree(code, below, w', n - 1 - a);
      t := Node(s, t1, t2);
    case Wait(later) =>
      WaitIsDriven(code, below, top);
      var t2 := RunIsTree(code, below, Fresh(later), n - 1);
      t := Pause(s, t2);
  }

  lemma {:induction false} WaitIsDriven<S, V>(code: S -> Act<S, V>, below: seq<Frame<S, V>>, top: Frame<S, V>)
    requires AllBlocked(below) && !top.Blocked() && code(top.About()).Wait?
    ensures Drive(code, Begin(below, top)) == Begin(below, Fresh(code(top.About()).later))
  {
  }

  lemma {:induction false} RunFirst<S, V>(code: S -> Act<S, V>, m: Machine<S, V>, n: nat)
    requires Coherent(m) && m.frames != []
    ensures n == 0 ==> Run(code, m, n) == m
    ensures n > 0 ==> Run(code, m, n) == Run(code, Drive(code, m), n - 1)
  {
  }

  lemma {:induction false} OneMoreBlocked<S, V>(below: seq<Frame<S, V>>, w: Frame<S, V>)
    requires AllBlocked(below) && w.Blocked()
    ensures AllBlocked(below + [w])
  {
  }

  /** The loop ends exactly when the recursion does. */
  lemma {:induction false} LoopEndsIffRecursionDoes<S, V>(code: S -> Act<S, V>, s: S)
    ensures (exists n: nat :: Run(code, Begin([], Fresh(s)), n).frames == []) <==>
      (exists fuel: nat :: Recurse(code, fuel, s, 1).Some?)
  {
    if n: nat :| Run(code, Begin([], Fresh(s)), n).frames == [] {
      var t := RunIsTree(code, [], Fresh(s), n);
      TreeRecurses(code, t, t.Size(), 1);
    }
    if fuel: nat :| Recurse(code, fuel, s, 1).Some? {
      LoopRefinesRecursion(code, fuel, s);
    }
  }

  /** With `N` tasks started in all and `W` waits, the loop takes `2 * N - 1 + W` polls, and no fewer end it. */
  lemma {:induction false} PollsOfTasks<S, V>(code: S -> Act<S, V>, t: Tree<S, V>, n: nat)
    requires t.Unfolds(code)
    ensures var m := Run(code, Begin([], Fresh(t.s)), n);
      && (m.frames == [] <==> n >= 2 * t.Tasks() - 1 + t.Waits())
      && (m.frames == [] ==> m.result == Some(t.Value()))
      && (m.frames != [] ==> n < |t.Visits(1)| && AtVisit(m, t.Visits(1)[n]))
  {
    hide Drive, Coherent, Run, AtVisit, Makes;
    VisitsOfTasks(t, 1);
    if n >= |t.Visits(1)| {
      PollsAfterTheEnd(code, t, n);
    } else {
      PollsBeforeTheEnd(code, t, n);
    }
  }

  lemma {:induction false} PollsAfterTheEnd<S, V>(code: S -> Act<S, V>, t: Tree<S, V>, n: nat)
    requires t.Unfolds(code) && n >= |t.Visits(1)|
    ensures Run(code, Begin([], Fresh(t.s)), n) == Machine([], Some(t.Value()))
  {
    RootReturns(code, t);
    RunPast(code, Begin([], Fresh(t.s)), |t.Visits(1)|, n);
  }

  /** Nothing happens once the last task has gone. */
  lemma {:induction false} RunPast<S, V>(code: S -> Act<S, V>, m: Machine<S, V>, k: nat, n: nat)
    requires Coherent(m) && Run(code, m, k).frames == [] && n >= k
    ensures Run(code, m, n) == Run(code, m, k)
  {
    hide Drive, Coherent, Run;
    RunPlus(code, m, k, n - k);
    RunStopped(code, Run(code, m, k), n - k);
  }

  lemma {:induction false} RootReturns<S, V>(code: S -> Act<S, V>, t: Tree<S, V>)
    requires t.Unfolds(code)
    ensures Run(code, Begin([], Fresh(t.s)), |t.Visits(1)|) == Machine([], Some(t.Value()))
  {
    hide Drive, Coherent, Run, AtVisit, Makes, t.Visits, t.Value, t.Unfolds;
    TreeIsRun(code, t, [], Fresh(t.s));
  }

  lemma {:induction false} RootMakes<S, V>(code: S -> Act<S, V>, t: Tree<S, V>)
    requires t.Unfolds(code)
    ensures Makes(code, Begin([], Fresh(t.s)), t.Visits(1))
  {
    hide Drive, Coherent, Run, AtVisit, Makes, Return, t.Visits, t.Value, t.Unfolds;
    TreeIsRun(code, t, [], Fresh(t.s));
  }

  lemma {:induction false} PollsBeforeTheEnd<S, V>(code: S -> Act<S, V>, t: Tree<S, V>, n: nat)
    requires t.Unfolds(code) && n < |t.Visits(1)|
    ensures AtVisit(Run(code, Begin([], Fresh(t.s)), n), t.Visits(1)[n])
    ensures Run(code, Begin([], Fresh(t.s)), n).frames != []
  {
    hide Drive, Coherent, Run, AtVisit, Makes, Return;
    RootMakes(code, t);
    MakesOne(code, Begin([], Fresh(t.s)), t.Visits(1), n);
    VisitHasFrames(Run(code, Begin([], Fresh(t.s)), n), t.Visits(1)[n]);
  }

  lemma {:induction false} VisitHasFrames<S, V>(m: Machine<S, V>, x: Visit<S>)
    requires AtVisit(m, x)
    ensures m.frames != []
  {
  }

  lemma {:induction false} RunStopped<S, V>(code: S -> Act<S, V>, m: Machine<S, V>, n: nat)
    requires Coherent(m) && m.frames == []
    ensures Run(code, m, n) == m
  {
  }

  /** One more poll. */
  lemma {:induction false} RunOnce<S, V>(code: S -> Act<S, V>, m: Machine<S, V>, n: nat)
    requires Coherent(m) && Run(code, m, n).frames != []
    ensures Run(code, m, n + 1) == Drive(code, Run(code, m, n))
  {
    hide Drive, Coherent;
    RunPlus(code, m, n, 1);
    assert Run(code, Run(code, m, n), 1) == Run(code, Drive(code, Run(code, m, n)), 0);
  }

  /** Without waits, no visit waits. */
  lemma {:induction false} NoWaits<S, V>(code: S -> Act<S, V>, t: Tree<S, V>, depth: nat)
    requires t.Unfolds(code) && t.Waits() == 0
    ensures forall x :: x in t.Visits(depth) ==> !code(x.s).Wait?
  {
    match t
    case Leaf(_, _) =>
    case Node(_, child, rest) =>
      NoWaits(code, child, depth + 1);
      NoWaits(code, rest, depth);
    case Pause(_, _) =>
  }

  ghost function WaitsIn<S, V>(code: S -> Act<S, V>, vs: seq<Visit<S>>): nat {
    if vs == [] then 0 else WaitsIn(code, vs[..|vs| - 1]) + if code(vs[|vs| - 1].s).Wait? then 1 else 0
  }

  lemma {:induction false} WaitsInConcat<S, V>(code: S -> Act<S, V>, a: seq<Visit<S>>, b: seq<Visit<S>>)
    ensures WaitsIn(code, a + b) == WaitsIn(code, a) + WaitsIn(code, b)
  {
    if b == [] {
      assert a + b == a;
    } else {
      assert (a + b)[..|a + b| - 1] == a + b[..|b| - 1];
      WaitsInConcat(code, a, b[..|b| - 1]);
    }
  }

  /** The visits that wait are as many as the waits of the recursion. */
  lemma {:induction false} WaitsOfVisits<S, V>(code: S -> Act<S, V>, t: Tree<S, V>, depth: nat)
    requires t.Unfolds(code)
    ensures WaitsIn(code, t.Visits(depth)) == t.Waits()
  {
    match t
    case Leaf(s, _) =>
      assert t.Visits(depth)[..0] == [];
    case Node(s, child, rest) =>
      var x := [Visit(depth, s)];
      assert x[..0] == [];
      WaitsOfVisits(code, child, depth + 1);
      WaitsOfVisits(code, rest, depth);
      WaitsInConcat(code, x, child.Visits(depth + 1));
      WaitsInConcat(code, x + child.Visits(depth + 1), rest.Visits(depth));
    case Pause(s, rest) =>
      var x := [Visit(depth, s)];
      assert x[..0] == [];
      WaitsOfVisits(code, rest, depth);
      WaitsInConcat(code, x, rest.Visits(depth));
  }
}
