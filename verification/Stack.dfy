/**
 The stack runtime: the place for the result of the root and the tasks above it, each in a region of the
 stack allocator, with the number of regions and the state that tells why a poll came back.
 */
module Stack {
  import opened Wrappers
  import opened Powers
  import opened Programs
  import opened Flattened
  import opened Lifetimes
  import opened StackBlocks
  import Alloc = StackAllocator

  datatype StackState = Base | Yield | Cancelled | NewTask

  datatype Layout = Layout(size: nat, align: nat)

  datatype Poll = Pending | Ready(yielding: bool)

  /** What a region holds: the result of the root, or a task and the slot its own result goes to. */
  datatype Slot<S, !V> = Place(value: Option<V>) | Task(frame: Frame<S, V>, target: nat)

  /** What the live regions, given newest first, were asked for, oldest first. */
  ghost function LayoutsOf(live: seq<Region>): (ls: seq<Layout>)
    ensures |ls| == |live|
  {
    if live == [] then [] else LayoutsOf(live[1..]) + [Layout(live[0].size, live[0].align)]
  }

  lemma {:induction false} LayoutsAt(live: seq<Region>, i: nat)
    requires i < |live|
    ensures LayoutsOf(live)[i] == Layout(live[|live| - 1 - i].size, live[|live| - 1 - i].align)
  {
    if i < |live| - 1 {
      LayoutsAt(live[1..], i);
    }
  }

  /** How many results the roots have written, and what became of them. */
  datatype Results = Results(produced: nat, returned: nat, dropped: nat)

  ghost predicate SlotsOk<S, V>(slots: seq<Slot<S, V>>) {
    && slots != [] && slots[0].Place?
    && forall i :: 1 <= i < |slots| ==> slots[i].Task? && slots[i].target == i - 1
  }

  ghost function MachineOf<S, V>(slots: seq<Slot<S, V>>): (m: Machine<S, V>)
    requires SlotsOk(slots)
    ensures |m.frames| == |slots| - 1
  {
    Machine(seq(|slots| - 1, i requires 0 <= i < |slots| - 1 => slots[i + 1].frame), slots[0].value)
  }

  /** A value put where the task in the newest slot is to leave its result. */
  function Delivered<S, V>(slots: seq<Slot<S, V>>, target: nat, v: V): (slots': seq<Slot<S, V>>)
    requires target < |slots| && (slots[target].Task? ==> slots[target].frame.Waiting?)
    ensures |slots'| == |slots| && forall i :: 0 <= i < |slots| && i != target ==> slots'[i] == slots[i]
  {
    slots[target := match slots[target]
      case Place(_) => Place(Some(v))
      case Task(frame, t) => Task(frame.(place := Some(v)), t)]
  }

  /** A delivered value and the task gone: a poll of a task that finishes. */
  lemma {:induction false} DeliveredIsDrive<S, V>(code: S -> Act<S, V>, slots: seq<Slot<S, V>>)
    requires SlotsOk(slots) && |slots| > 1 && Coherent(MachineOf(slots))
    requires code(Top(MachineOf(slots)).About()).Done?
    ensures var k := |slots| - 1;
      && !slots[k].frame.Blocked() && (k > 1 ==> slots[k - 1].frame.Blocked())
      && Top(MachineOf(slots)) == slots[k].frame
      && var slots' := Delivered(slots, k - 1, code(slots[k].frame.About()).v)[..k];
        && SlotsOk(slots') && MachineOf(slots') == Drive(code, MachineOf(slots))
        && Coherent(MachineOf(slots')) && (slots'[0].value.Some? <==> k == 1)
  {
    var k := |slots| - 1;
    var m := MachineOf(slots);
    assert Top(m) == slots[k].frame;
    if k > 1 {
      assert Below(m)[k - 2] == slots[k - 1].frame;
    }
    var slots' := Delivered(slots, k - 1, code(slots[k].frame.About()).v)[..k];
    assert MachineOf(slots').frames == Drive(code, m).frames;
  }

  /** A task that waits, and its run above it: a poll of a task that calls. */
  lemma {:induction false} CalledIsDrive<S, V>(code: S -> Act<S, V>, slots: seq<Slot<S, V>>)
    requires SlotsOk(slots) && |slots| > 1 && Coherent(MachineOf(slots))
    requires code(Top(MachineOf(slots)).About()).Call?
    ensures var k := |slots| - 1; var act := code(Top(MachineOf(slots)).About());
      && Top(MachineOf(slots)) == slots[k].frame
      && var slots' := slots[k := Task(Waiting(act.next, None), k - 1)] + [Task(Fresh(act.child), k)];
        && SlotsOk(slots') && MachineOf(slots') == Drive(code, MachineOf(slots))
        && Coherent(MachineOf(slots')) && slots'[0].value.None?
  {
    var k := |slots| - 1;
    var m := MachineOf(slots);
    assert Top(m) == slots[k].frame;
    var act := code(Top(m).About());
    var slots' := slots[k := Task(Waiting(act.next, None), k - 1)] + [Task(Fresh(act.child), k)];
    assert MachineOf(slots').frames == Drive(code, m).frames;
  }

  /** A task that goes on from another state when it is polled again: a poll of a task that waits. */
  lemma {:induction false} WaitedIsDrive<S, V>(code: S -> Act<S, V>, slots: seq<Slot<S, V>>)
    requires SlotsOk(slots) && |slots| > 1 && Coherent(MachineOf(slots))
    requires code(Top(MachineOf(slots)).About()).Wait?
    ensures var k := |slots| - 1; var act := code(Top(MachineOf(slots)).About());
      && Top(MachineOf(slots)) == slots[k].frame
      && var slots' := slots[k := Task(Fresh(act.later), k - 1)];
        && SlotsOk(slots') && MachineOf(slots') == Drive(code, MachineOf(slots))
        && Coherent(MachineOf(slots')) && slots'[0].value.None?
  {
    var k := |slots| - 1;
    var m := MachineOf(slots);
    assert Top(m) == slots[k].frame;
    var act := code(Top(m).About());
    var slots' := slots[k := Task(Fresh(act.later), k - 1)];
    assert MachineOf(slots').frames == Drive(code, m).frames;
  }

  /** A stack with only the root on it. */
  lemma {:induction false} EnteredIsBegin<S, V>(slots: seq<Slot<S, V>>, s: S)
    requires slots == [Place(None), Task(Fresh(s), 0)]
    ensures SlotsOk(slots) && MachineOf(slots) == Begin([], Fresh(s)) && Coherent(MachineOf(slots))
  {
    assert MachineOf(slots).frames == [Fresh(s)];
  }

  class Stack<S(!new), V(!new)> {
    const code: S -> Act<S, V>
    const layout: S -> Layout  // of the task that begins in a state
    const place: Layout        // of the result place
    const needs_drop: bool     // whether a result has a destructor
    const allocator: Alloc.StackAllocator
    var slots: seq<Slot<S, V>>  // what the live regions hold, the oldest first
    var len: nat
    var state: StackState
    ghost var log: Log
    ghost var ids: seq<nat>  // the future in each slot above the first
    ghost var results: Results
    ghost var layouts: seq<Layout>  // what each slot was created for

    /** The live regions of the allocator are the slots, each as large and aligned as the slot was created for. */
    ghost predicate Allocated()
      reads this`slots, this`layouts, allocator
    {
      allocator.Valid() && LayoutsOf(allocator.Live()) == layouts && |layouts| == |slots| && Sized()
    }

    /** The region of a slot. */
    ghost function RegionOf(i: nat): Region
      requires Allocated() && i < |slots|
      reads this`slots, this`layouts, allocator
    {
      allocator.Live()[|slots| - 1 - i]
    }

    /** The region of every slot has the size and alignment of its layout, and no two share a byte. */
    lemma SlotsAreApart(i: nat, j: nat)
      requires Allocated() && i < j < |slots|
      ensures RegionOf(i).size == layouts[i].size && RegionOf(i).align == layouts[i].align
      ensures RegionOf(j).size == layouts[j].size && RegionOf(j).align == layouts[j].align
      ensures AlignedAsAsked(RegionOf(i)) && AlignedAsAsked(RegionOf(j)) && Disjoint(RegionOf(j), RegionOf(i))
    {
      hide Shape;
      LayoutsAt(allocator.Live(), i);
      LayoutsAt(allocator.Live(), j);
      LiveRegionsAreDisjoint(allocator.chain, |slots| - 1 - j, |slots| - 1 - i);
      var _ := LiveRegionsAreInside(allocator.chain, |slots| - 1 - i);
      var _ := LiveRegionsAreInside(allocator.chain, |slots| - 1 - j);
    }

    /** Alignments are powers of two. */
    ghost predicate Sized() {
      IsPowerOfTwo(place.align) && forall s :: IsPowerOfTwo(layout(s).align)
    }

    /** Every result written was returned or dropped, but for those still held and those that need no drop. */
    ghost predicate Balanced(held: nat)
      reads this`results
    {
      && results.produced >= results.returned + results.dropped + held
      && (needs_drop ==> results.produced == results.returned + results.dropped + held)
    }

    /** Nothing on the stack, and nothing allocated. */
    ghost predicate Vacant()
      reads this, allocator
    {
      Allocated() && slots == [] && len == 0 && ids == [] && LogOk(log, ids) && Balanced(0)
    }

    /** Ready to be entered. */
    ghost predicate Idle()
      reads this, allocator
    {
      Vacant() && state == Base
    }

    /** The slots are in order, and the futures in them are the ones not yet dropped. */
    ghost predicate Sound()
      reads this, allocator
    {
      && Allocated() && SlotsOk(slots) && len == |slots|
      && |ids| == |slots| - 1 && LogOk(log, ids)
      && Balanced(if slots[0].value.Some? then 1 else 0)
    }

    /** Between two polls. */
    ghost predicate Busy()
      reads this, allocator
    {
      Sound() && state == Base && Coherent(Machine())
    }

    ghost function Machine(): Machine<S, V>
      reads this`slots
      requires SlotsOk(slots)
    {
      MachineOf(slots)
    }

    constructor (code: S -> Act<S, V>, layout: S -> Layout, place: Layout, needs_drop: bool)
      requires IsPowerOfTwo(place.align) && forall s :: IsPowerOfTwo(layout(s).align)
      ensures Idle() && this.code == code && fresh(allocator) && log == Log([], [])
    {
      this.code, this.layout, this.place, this.needs_drop := code, layout, place, needs_drop;
      allocator := new Alloc.StackAllocator();
      slots, len, state, ids, log, results := [], 0, Base, [], Log([], []), Results(0, 0, 0);
      layouts := [];
    }

    /** A region with this content, on top. */
    method AllocWith(slot: Slot<S, V>, l: Layout)
      requires Allocated() && IsPowerOfTwo(l.align)
      modifies this`slots, this`layouts, allocator
      ensures Allocated() && slots == old(slots) + [slot] && layouts == old(layouts) + [l]
    {
      ghost var live := allocator.Live();
      var res := allocator.AllocLayout(l.size, l.align);
      assert ([Region(res, l.size, l.align)] + live)[1..] == live;
      slots, layouts := slots + [slot], layouts + [l];
    }

    /** The newest region forgotten. */
    method PopDealloc()
      requires Allocated() && slots != []
      modifies this`slots, this`layouts, allocator
      ensures Allocated() && slots == old(slots)[..|old(slots)| - 1] && layouts == old(layouts)[..|old(slots)| - 1]
    {
      allocator.PopDealloc();
      slots, layouts := slots[..|slots| - 1], layouts[..|slots| - 1];
    }

    /** Puts the root and the place for its result on an empty stack. */
    method EnterFuture(s: S)
      requires Idle()
      modifies this, allocator
      ensures Busy() && Machine() == Begin([], Fresh(s)) && layouts == [place, layout(s)]
      ensures log == old(Born(log, [])) && results == old(results)
    {
      hide LogOk, Allocated, MachineOf, Coherent, Born, Begin, SlotsOk, Balanced;
      EnterPlace();
      AllocFuture(s, 0);
      EnteredIsBegin(slots, s);
    }

    /** The place for the result. */
    method EnterPlace()
      requires Idle()
      modifies this`slots, this`layouts, this`len, allocator
      ensures Allocated() && slots == [Place(None)] && len == 1 && layouts == [place]
      ensures state == Base && ids == [] && LogOk(log, ids) && Balanced(0) && log == old(log) && results == old(results)
    {
      assert IsPowerOfTwo(place.align);
      hide LogOk, Sized, allocator.Valid, Balanced;
      AllocWith(Place(None), place);
      len := 1;
    }

    /** A new future on top. */
    method AllocFuture(s: S, target: nat)
      requires Allocated() && LogOk(log, ids)
      modifies this`slots, this`layouts, this`len, this`ids, this`log, allocator
      ensures Allocated() && slots == old(slots) + [Task(Fresh(s), target)] && len == old(len) + 1
      ensures layouts == old(layouts) + [layout(s)]
      ensures log == old(Born(log, ids)) && ids == old(ids) + [|old(log).parents|] && LogOk(log, ids)
    {
      AllocWith(Task(Fresh(s), target), layout(s));
      BornOk(log, ids);
      log, ids := Born(log, ids), ids + [|log.parents|];
      len := len + 1;
    }

    /** A run awaited for the first time: the state tells the driver why the poll comes back. */
    method PushTask(s: S, target: nat)
      requires Allocated() && LogOk(log, ids) && state == Base
      modifies this`slots, this`layouts, this`len, this`ids, this`log, this`state, allocator
      ensures Allocated() && slots == old(slots) + [Task(Fresh(s), target)] && len == old(len) + 1
      ensures layouts == old(layouts) + [layout(s)]
      ensures log == old(Born(log, ids)) && ids == old(ids) + [|old(log).parents|] && LogOk(log, ids)
      ensures state == NewTask
    {
      state := NewTask;
      AllocFuture(s, target);
    }

    /** Drops the newest future and its region. */
    method PopTask()
      requires Allocated() && LogOk(log, ids) && slots != [] && len > 0 && ids != []
      requires slots[|slots| - 1].Task? && (slots[|slots| - 1].frame.Blocked() ==> state == Cancelled)
      modifies this`slots, this`layouts, this`len, this`ids, this`log, allocator
      ensures Allocated() && slots == old(slots)[..|old(slots)| - 1] && len == old(len) - 1
      ensures layouts == old(layouts)[..|old(slots)| - 1]
      ensures log == old(Dropped(log, ids)) && ids == old(ids)[..|old(ids)| - 1] && LogOk(log, ids)
    {
      DropTaskInline();
      PopDealloc();
      len := len - 1;
    }

    /**
     Takes the newest task off because the run it belongs to was dropped by its owner. The state is put
     back to what it was: after a drop in the very poll that began the run it still tells of a new task.
     */
    method PopCancelTask()
      requires Allocated() && LogOk(log, ids) && slots != [] && len > 0 && ids != []
      requires slots[|slots| - 1].Task?
      modifies this`slots, this`layouts, this`len, this`ids, this`log, this`state, allocator
      ensures Allocated() && slots == old(slots)[..|old(slots)| - 1] && len == old(len) - 1
      ensures layouts == old(layouts)[..|old(slots)| - 1]
      ensures log == old(Dropped(log, ids)) && ids == old(ids)[..|old(ids)| - 1] && LogOk(log, ids)
      ensures state == old(state)
    {
      var old_state := state;
      state := Cancelled;
      PopTask();
      state := old_state;
    }

    /**
     Drops the newest future. A run in it that is still awaited would take its own task off the stack,
     which must not happen a second time: by then that task has gone, and the state says so.
     */
    method DropTaskInline()
      requires LogOk(log, ids) && slots != [] && ids != []
      requires slots[|slots| - 1].Task? && (slots[|slots| - 1].frame.Blocked() ==> state == Cancelled)
      modifies this`ids, this`log
      ensures log == old(Dropped(log, ids)) && ids == old(ids)[..|old(ids)| - 1] && LogOk(log, ids)
    {
      if slots[|slots| - 1].frame.Blocked() && state != Cancelled {
        assert false;
      }
      DroppedOk(log, ids);
      log, ids := Dropped(log, ids), ids[..|ids| - 1];
    }

    /** Polls the newest task: it runs until it finishes, awaits a run, or waits for something outside. */
    method DriveTask() returns (ready: bool)
      requires Busy() && |slots| > 1
      modifies this`slots, this`layouts, this`len, this`ids, this`log, this`state, this`results, allocator
      ensures var k := |old(slots)| - 1; var f := old(slots)[k].frame;
        && !f.Blocked() && f == Top(old(Machine())) && (k > 1 ==> old(slots)[k - 1].frame.Blocked())
        && match code(f.About())
        case Done(v) =>
          && ready && slots == Delivered(old(slots), k - 1, v) && state == Base && layouts == old(layouts)
          && len == old(len) && ids == old(ids) && log == old(log) && LogOk(log, ids) && Allocated()
          && results == old(results).(produced := old(results).produced + if k == 1 then 1 else 0)
        case Call(child, next) =>
          && !ready && slots == old(slots)[k := Task(Waiting(next, None), k - 1)] + [Task(Fresh(child), k)]
          && state == NewTask && len == old(len) + 1 && results == old(results)
          && layouts == old(layouts) + [layout(child)]
          && log == old(Born(log, ids)) && ids == old(ids) + [|old(log).parents|] && LogOk(log, ids) && Allocated()
        case Wait(later) =>
          && !ready && slots == old(slots)[k := Task(Fresh(later), k - 1)] && state == Base && layouts == old(layouts)
          && len == old(len) && ids == old(ids) && log == old(log) && LogOk(log, ids) && Allocated()
          && results == old(results)
    {
      hide LogOk, Coherent, IsPowerOfTwo;
      var k := |slots| - 1;
      BusyTop();
      var f := slots[k].frame;
      match code(f.About())
      case Done(v) =>
        slots := Delivered(slots, slots[k].target, v);
        if k == 1 {
          results := results.(produced := results.produced + 1);
        }
        ready := true;
      case Call(child, next) =>
        slots := slots[k := Task(Waiting(next, None), slots[k].target)];
        PushTask(child, k);
        ready := false;
      case Wait(later) =>
        slots := slots[k := Task(Fresh(later), slots[k].target)];
        ready := false;
    }

    lemma BusyShape()
      requires Busy()
      ensures SlotsOk(slots) && len == |slots| && Coherent(Machine())
    {
    }

    lemma BusyTop()
      requires Busy() && |slots| > 1
      ensures var k := |slots| - 1;
        && !slots[k].frame.Blocked() && slots[k].frame == Top(Machine())
        && (k > 1 ==> slots[k - 1].frame.Blocked()) && slots[0].value.None?
    {
      var k := |slots| - 1;
      assert Top(Machine()) == slots[k].frame;
      if k > 1 {
        assert Below(Machine())[k - 2] == slots[k - 1].frame;
      }
    }

    /** One poll of the newest task, after which the stack is ready for the next. */
    method DriveTopTask() returns (r: Poll)
      requires Busy() && |slots| > 1
      modifies this, allocator
      ensures r == if code(Top(old(Machine())).About()).Wait? then Pending else Ready(false)
      ensures Busy() && Machine() == Drive(code, old(Machine()))
      ensures log == match code(Top(old(Machine())).About())
        case Done(_) => old(Dropped(log, ids))
        case Call(_, _) => old(Born(log, ids))
        case Wait(_) => old(log)
      ensures layouts == match code(Top(old(Machine())).About())
        case Done(_) => old(layouts[..|layouts| - 1])
        case Call(child, _) => old(layouts) + [layout(child)]
        case Wait(_) => old(layouts)
      ensures results.returned == old(results).returned && results.dropped == old(results).dropped
      ensures results.produced == old(results).produced + if slots[0].value.Some? then 1 else 0
    {
      hide LogOk, Coherent, Drive, MachineOf, Delivered, Born, Dropped, Sized, allocator.Valid;
      BusyTop();
      if code(Top(Machine()).About()).Done? {
        DeliveredIsDrive(code, slots);
      } else if code(Top(Machine()).About()).Call? {
        CalledIsDrive(code, slots);
      } else {
        WaitedIsDrive(code, slots);
      }
      var ready := DriveTask();
      if ready {
        PopTask();
        return Ready(false);
      } else {
        match state
        case Base => return Pending;  // something outside made the task wait
        case Yield => assert false;      // a yield asked for: never, since nothing sets this state
        case Cancelled => assert false;  // tasks run while cancelling
        case NewTask =>
          state := Base;
          return Ready(false);
      }
    }

    /** The result of the root, once nothing but its place is left. */
    method TryGetResult() returns (r: Option<V>)
      requires Busy()
      modifies this, allocator
      ensures r.Some? <==> old(Machine()).frames == []
      ensures r.Some? ==> r == old(Machine()).result && Idle()
      ensures r.None? ==> Busy() && slots == old(slots) && layouts == old(layouts) && results == old(results)
      ensures log == old(log)
      ensures r.Some? ==> results == old(results).(returned := old(results).returned + 1)
    {
      if len == 1 {
        r := slots[0].value;
        assert r.Some?;
        PopDealloc();
        len := 0;
        results := results.(returned := results.returned + 1);
        return;
      }
      r := None;
    }

    /** Cancels whatever is on the stack: the futures from the newest down, then the place of the result. */
    method Clear()
      requires Vacant() || (Sound() && (slots[0].value.Some? ==> |slots| <= 2))
      modifies this, allocator
      ensures Vacant() && state == if old(len) == 0 then old(state) else Base
      ensures log.parents == old(log).parents && old(log).drops <= log.drops
      ensures results.produced == old(results).produced && results.returned == old(results).returned
    {
      hide LogOk, Sized, allocator.Valid;
      if len == 0 {
        return;
      }
      state := Cancelled;
      DropTasks();
      if needs_drop && len <= 2 {
        if slots[0].value.Some? {
          results := results.(dropped := results.dropped + 1);
        }
        slots := slots[0 := Place(None)];
      }
      PopDealloc();
      len := 0;
      state := Base;
    }

    /** The futures from the newest down; `len` stays what it was. */
    method DropTasks()
      requires Sound() && state == Cancelled
      modifies this`slots, this`layouts, this`ids, this`log, allocator
      ensures Allocated() && slots == old(slots)[..1] && layouts == old(layouts)[..1] && ids == [] && LogOk(log, ids)
      ensures log.parents == old(log).parents && old(log).drops <= log.drops
    {
      hide LogOk, IsPowerOfTwo;
      var n := len;
      while n > 1
        invariant 1 <= n <= len && Allocated() && slots == old(slots)[..n] && layouts == old(layouts)[..n]
        invariant |ids| == n - 1 && LogOk(log, ids)
        invariant log.parents == old(log).parents && old(log).drops <= log.drops
      {
        DropTaskInline();
        PopDealloc();
        n := n - 1;
      }
    }
  }
}
