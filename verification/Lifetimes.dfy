/** The futures of a stack from birth to drop: which have been created, by whom, and in which order they were dropped. */
module Lifetimes {
  /** The parent of each future created so far (-1 for a root), and the futures dropped so far, in order. */
  datatype Log = Log(parents: seq<int>, drops: seq<nat>)

  ghost predicate Distinct(xs: seq<nat>) {
    forall i, j :: 0 <= i < j < |xs| ==> xs[i] != xs[j]
  }

  ghost function ParentAt(live: seq<nat>, i: int): int {
    if 0 < i <= |live| then live[i - 1] else -1
  }

  ghost predicate IsChildOfBelow(log: Log, live: seq<nat>, i: nat)
    requires i < |live|
  {
    live[i] < |log.parents| && log.parents[live[i]] == ParentAt(live, i)
  }

  /** Every child of the `i`th drop was dropped before it. */
  ghost predicate ChildrenFirst(log: Log, i: nat)
    requires i < |log.drops|
  {
    forall c :: 0 <= c < |log.parents| && log.parents[c] == log.drops[i] ==> c in log.drops[..i]
  }

  /** The futures are the live ones, each the child of the one below, and the dropped ones, each after its children. */
  ghost predicate LogOk(log: Log, live: seq<nat>) {
    && Distinct(live) && Distinct(log.drops)
    && (forall x :: x in live ==> x < |log.parents| && x !in log.drops)
    && (forall x :: x in log.drops ==> x < |log.parents|)
    && (forall x :: 0 <= x < |log.parents| ==> x in live || x in log.drops)
    && (forall i :: 0 <= i < |live| ==> IsChildOfBelow(log, live, i))
    && (forall i :: 0 <= i < |log.drops| ==> ChildrenFirst(log, i))
  }

  /** A future created above the newest. */
  ghost function Born(log: Log, live: seq<nat>): Log {
    log.(parents := log.parents + [ParentAt(live, |live|)])
  }

  /** The newest future dropped. */
  ghost function Dropped(log: Log, live: seq<nat>): Log
    requires live != []
  {
    log.(drops := log.drops + [live[|live| - 1]])
  }

  /** A new future is the child of the newest, and a root if there is none. */
  lemma {:induction false} BornOk(log: Log, live: seq<nat>)
    requires LogOk(log, live)
    ensures LogOk(Born(log, live), live + [|log.parents|])
    ensures Born(log, live).parents == log.parents + [if live == [] then -1 else live[|live| - 1]]
  {
    var log', live' := Born(log, live), live + [|log.parents|];
    assert forall i :: 0 <= i < |live| ==> live[i] in live;
    forall i | 0 <= i < |live'|
      ensures IsChildOfBelow(log', live', i)
    {
      if i < |live| {
        assert live[i] in live && IsChildOfBelow(log, live, i);
      }
    }
    forall i | 0 <= i < |log'.drops|
      ensures ChildrenFirst(log', i)
    {
      assert ChildrenFirst(log, i) && log.drops[i] in log.drops;
      if live != [] {
        assert live[|live| - 1] in live;
      }
    }
  }

  lemma {:induction false} DroppedOk(log: Log, live: seq<nat>)
    requires LogOk(log, live) && live != []
    ensures LogOk(Dropped(log, live), live[..|live| - 1])
  {
    var n := |live| - 1;
    var log', live', x := Dropped(log, live), live[..n], live[n];
    assert live == live' + [x];
    assert forall y :: y in live <==> y in live' || y == x;
    assert live[n] in live;
    forall i | 0 <= i < |live'|
      ensures IsChildOfBelow(log', live', i)
    {
      assert IsChildOfBelow(log, live, i);
    }
    forall i | 0 <= i < |log'.drops|
      ensures ChildrenFirst(log', i)
    {
      if i < |log.drops| {
        assert ChildrenFirst(log, i) && log'.drops[..i] == log.drops[..i];
      } else {
        NewestHasNoLiveChild(log, live);
        assert log'.drops[..i] == log.drops;
      }
    }
  }

  lemma {:induction false} NewestHasNoLiveChild(log: Log, live: seq<nat>)
    requires LogOk(log, live) && live != []
    ensures forall i :: 0 <= i < |live| ==> live[i] < |log.parents| && log.parents[live[i]] != live[|live| - 1]
  {
    forall i | 0 <= i < |live|
      ensures live[i] < |log.parents| && log.parents[live[i]] != live[|live| - 1]
    {
      assert IsChildOfBelow(log, live, i);
    }
  }

  /** Once nothing is live, every future has been dropped exactly once, and after all its children. */
  lemma {:induction false} AllDroppedOnce(log: Log, x: nat)
    requires LogOk(log, []) && x < |log.parents|
    ensures exists i :: 0 <= i < |log.drops| && log.drops[i] == x
    ensures forall i, j :: 0 <= i < |log.drops| && 0 <= j < |log.drops| && log.drops[i] == x && log.drops[j] == x ==> i == j
    ensures forall i, j :: 0 <= i < |log.drops| && 0 <= j < |log.drops| && log.drops[j] == x && log.parents[x] == log.drops[i] ==> j < i
  {
    assert x in log.drops;
    forall i, j | 0 <= i < |log.drops| && 0 <= j < |log.drops| && log.drops[j] == x && log.parents[x] == log.drops[i]
      ensures j < i
    {
      assert ChildrenFirst(log, i);
      var k :| 0 <= k < i && log.drops[..i][k] == x;
      assert log.drops[k] == x;
    }
  }
}
