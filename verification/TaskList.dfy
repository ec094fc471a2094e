/**
 The all-list of the scheduler as it is stored: tasks linked in both directions through their `next`
 and `prev` cells, with `allNext` and `allPrev` at the ends and `len` beside them.
 */
module TaskList {
  import opened Schedular

  class TaskBody {
    const id: TaskId
    var next: TaskBody?
    var prev: TaskBody?
    var done: TaskState
    var queued: bool
    var count: int
    var dropped: nat

    constructor (id: TaskId)
      ensures this.id == id
      ensures next == null && prev == null && done == Running && queued && count == 3 && dropped == 0
    {
      this.id := id;
      next, prev, done, queued, count, dropped := null, null, Running, true, 3, 0;
    }
  }

  class AllTasks {
    var allNext: TaskBody?
    var allPrev: TaskBody?
    var len: nat
    ghost var Tasks: seq<TaskBody>  // the list, from allNext to allPrev
    ghost var uncounted: nat        // tasks in the list that `len` does not count yet

    /** Position `i` of the list, or null outside it. */
    ghost function At(i: int): TaskBody?
      reads this`Tasks
    {
      if 0 <= i < |Tasks| then Tasks[i] else null
    }

    ghost predicate Valid()
      reads this, Tasks
    {
      len + uncounted == |Tasks| && Linked()
    }

    /** The links and the ends describe exactly `Tasks`, in order, without repetition. */
    ghost predicate Linked()
      reads this`Tasks, this`allNext, this`allPrev, Tasks`next, Tasks`prev
    {
      && (forall i, j :: 0 <= i < j < |Tasks| ==> Tasks[i] != Tasks[j])
      && allNext == At(0)
      && allPrev == At(|Tasks| - 1)
      && (forall i :: 0 <= i < |Tasks| ==> LinkedAt(i))
    }

    /** The task at position `i` points to its neighbours. */
    ghost predicate LinkedAt(i: int)
      requires 0 <= i < |Tasks|
      reads this`Tasks, Tasks`next, Tasks`prev
    {
      Tasks[i].next == At(i + 1) && Tasks[i].prev == At(i - 1)
    }

    constructor ()
      ensures Valid() && Tasks == [] && uncounted == 0
    {
      allNext, allPrev, len, Tasks, uncounted := null, null, 0, [], 0;
    }

    method IsEmpty() returns (empty: bool)
      requires Valid()
      ensures empty <==> Tasks == []
    {
      empty := allNext == null;
    }

    /**
     Puts a new task at the front; its own `prev` is still the null it was created with. Its caller
     counts it in `len` only after it has pushed the task to the queue as well.
     */
    method PushTaskToAll(task: TaskBody)
      requires Valid() && task !in Tasks && task.prev == null
      modifies this, task, Tasks
      ensures Valid() && Tasks == [task] + old(Tasks) && uncounted == old(uncounted) + 1
      ensures forall x :: x in Tasks ==> SameRecord(x)
    {
      task.next := allNext;
      if allNext != null {
        allNext.prev := task;
      }
      allNext := task;
      if allPrev == null {
        allPrev := task;
      }
      Tasks, uncounted := [task] + Tasks, uncounted + 1;
      forall i | 0 <= i < |Tasks|
        ensures LinkedAt(i)
      {
        if i > 0 {
          assert Tasks[i] == old(Tasks)[i - 1] && old(LinkedAt(i - 1));
        }
      }
    }

    /** Counts a task that was put in the list. */
    method CountTask()
      requires Valid() && uncounted > 0
      modifies this`len, this`uncounted
      ensures Valid() && len == old(len) + 1 && uncounted == old(uncounted) - 1
    {
      len, uncounted := len + 1, uncounted - 1;
    }

    /**
     Removes a task: its flag is set, its future dropped if it was still running, its neighbours and
     the ends of the list closed over it, and the count of the list released.
     */
    method PopTaskAll(task: TaskBody)
      requires Valid() && task in Tasks && uncounted == 0
      modifies this, Tasks
      ensures Valid() && Tasks == Without(old(Tasks), task) && uncounted == 0
      ensures IsReleased(task)
      ensures forall x :: x in old(Tasks) && x != task ==> SameRecord(x)
    {
      hide LinkedAt, Without;
      Retire(task);
      Detach(task);
      task.count := task.count - 1;
    }

    /** The first loop of `clear`: the list is emptied from the front, every task in it retired once. */
    method ClearAll()
      requires Valid() && uncounted == 0
      modifies this, Tasks
      ensures Valid() && Tasks == []
      ensures forall x :: x in old(Tasks) ==> IsReleased(x)
    {
      Ends();
      hide Linked, IsReleased;
      ghost var k := 0;
      while allNext != null
        invariant Valid() && uncounted == 0 && k <= |old(Tasks)| && Tasks == old(Tasks)[k..]
        invariant allNext == null <==> Tasks == []
        invariant forall i :: 0 <= i < k ==> IsReleased(old(Tasks)[i])
        invariant forall x :: x in Tasks ==> SameRecord(x)
        decreases |Tasks|
      {
        label before:
        ghost var x := Tasks[0];
        assert SameRecord(x) && x == old(Tasks)[k];
        assert forall i :: 0 <= i < k ==> old(Tasks)[i] !in Tasks;
        PopFirst();
        assert IsReleased@before(x);
        assert IsReleased(x);
        forall y | y in Tasks
          ensures SameRecord(y)
        {
          assert SameRecord@before(y);
        }
        k := k + 1;
        Ends();
      }
    }

    /** What the ends tell, and that no task is twice in the list. */
    lemma Ends()
      requires Valid()
      ensures allNext == null <==> Tasks == []
      ensures forall i, j :: 0 <= i < j < |Tasks| ==> Tasks[i] != Tasks[j]
    {
    }

    /** The body of that loop. */
    method PopFirst()
      requires Valid() && allNext != null && uncounted == 0
      modifies this, Tasks
      ensures Valid() && Tasks == old(Tasks)[1..] && uncounted == 0
      ensures IsReleased(old(Tasks)[0])
      ensures forall x :: x in Tasks ==> SameRecord(x)
    {
      hide LinkedAt;
      PopTaskAll(allNext);
    }

    /** The record of a task that leaves the list. */
    method Retire(task: TaskBody)
      modifies task`queued, task`done, task`dropped
      ensures IsRetired(task)
    {
      task.queued := true;
      if task.done == Running {
        task.dropped := task.dropped + 1;
      }
      task.done := Done;
    }

    /** The end of a removal: the neighbours and ends closed over the task, and one less counted. */
    method Detach(task: TaskBody)
      requires Valid() && task in Tasks && uncounted == 0
      modifies this, Tasks
      ensures Valid() && Tasks == Without(old(Tasks), task) && uncounted == 0 && len == old(len) - 1
      ensures forall x :: x in old(Tasks) ==> SameRecord(x)
    {
      hide LinkedAt, Without, Find;
      ghost var k := Find(Tasks, task);
      WithoutIsSplit(Tasks, k);
      Unlink(task, k);
      len := len - 1;
    }

    /** Closes the links of the neighbours, and the ends of the list, over position `k`. */
    method Unlink(task: TaskBody, ghost k: nat)
      requires Linked() && k < |Tasks| && Tasks[k] == task
      modifies this`allNext, this`allPrev, this`Tasks, Tasks
      ensures Tasks == old(Tasks)[..k] + old(Tasks)[k + 1..] && Linked()
      ensures forall x :: x in old(Tasks) ==> SameRecord(x)
    {
      ghost var before := Tasks;
      assert LinkedAt(k);
      if task.next != null {
        task.next.prev := task.prev;
      } else {
        allPrev := task.prev;
      }
      if task.prev != null {
        task.prev.next := task.next;
      } else {
        allNext := task.next;
      }
      Tasks := Tasks[..k] + Tasks[k + 1..];
      forall i | 0 <= i < |Tasks|
        ensures LinkedAt(i)
      {
        var j := if i < k then i else i + 1;
        assert Tasks[i] == before[j] && old(LinkedAt(j));
      }
    }
  }

  /** The data of a task beside its links. */
  twostate predicate SameRecord(x: TaskBody)
    reads x
  {
    x.done == old(x.done) && x.queued == old(x.queued) && x.count == old(x.count) && x.dropped == old(x.dropped)
  }

  /** The task is done, flagged, and its future has been dropped now if it was still running. */
  twostate predicate IsRetired(x: TaskBody)
    reads x
  {
    && x.queued && x.done == Done
    && x.dropped == old(x.dropped) + if old(x.done) == Running then 1 else 0
  }

  /** Retired, and the count of the list given back. */
  twostate predicate IsReleased(x: TaskBody)
    reads x
  {
    IsRetired(x) && x.count == old(x.count) - 1
  }

  /** A list without one of its tasks. */
  ghost function Without(ts: seq<TaskBody>, t: TaskBody): seq<TaskBody> {
    if ts == [] then []
    else if ts[0] == t then ts[1..]
    else [ts[0]] + Without(ts[1..], t)
  }

  ghost function Find(ts: seq<TaskBody>, t: TaskBody): (k: nat)
    requires t in ts
    ensures k < |ts| && ts[k] == t
  {
    if ts[0] == t then 0 else 1 + Find(ts[1..], t)
  }

  lemma {:induction false} WithoutIsSplit(ts: seq<TaskBody>, k: nat)
    requires k < |ts| && forall i, j :: 0 <= i < j < |ts| ==> ts[i] != ts[j]
    ensures Without(ts, ts[k]) == ts[..k] + ts[k + 1..]
  {
    if k > 0 {
      WithoutIsSplit(ts[1..], k - 1);
      assert ts[1..][k - 1] == ts[k];
      assert ts[..k] == [ts[0]] + ts[1..][..k - 1];
    }
  }
}
