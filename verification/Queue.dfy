/**
 The intrusive multi-producer single-consumer queue as a transition system.

 Every atomic operation of `push` and `pop` is one step, producers and the consumer interleave
 freely, and atomics are sequentially consistent.  A null `next` pointer is a key that is absent
 from the map `next`.  Three history variables are never read by a step: `order` is the sequence
 of all nodes that were ever swapped into `head`, `pos` the index in it of the consumer's tail, and
 `overlap` whether a producer was between its swap and its link during the current pop.
 */
module Queue {
  import opened Wrappers

  datatype Node = Stub | Item(id: nat)

  type Tid = nat

  /** A producer inside `push`: next pointer cleared, or head swapped with the link outstanding. */
  datatype PushPc =
    | Cleared(node: Node)
    | Swapped(node: Node, prev: Node, at: nat)

  /** The consumer's place in `pop`. */
  datatype PopPc =
    | Outside
    | Skipped
    | CheckHead
    | StubStore
    | StubSwap
    | StubLink(prev: Node, at: nat)
    | Reload

  datatype State = State(
    head: Node,
    tail: Node,
    next: map<Node, Node>,
    producers: map<Tid, PushPc>,
    pop: PopPc,
    order: seq<Node>,
    pos: nat,
    overlap: bool)

  datatype Action =
    | Store(t: Tid, id: nat)
    | Swap(t: Tid)
    | Link(t: Tid)
    | PopLoad
    | PopSkip
    | PopHead
    | PopStubStore
    | PopStubSwap
    | PopStubLink
    | PopReload

  datatype Answer = Empty | Value(node: Node) | Inconsistent

  // ----- the steps

  function Init(): State {
    State(Stub, Stub, map[], map[], Outside, [Stub], 0, false)
  }

  /** Loading the next pointer of a node. */
  function Load(s: State, n: Node): Option<Node> {
    if n in s.next then Some(s.next[n]) else None
  }

  /** Some producer is between its head swap and its link. */
  predicate MidPush(s: State) {
    exists t :: t in s.producers && s.producers[t].Swapped?
  }

  /** What `push` asks of its caller: the node is neither in the queue nor being pushed. */
  predicate Free(s: State, n: Node)
    requires s.pos <= |s.order|
  {
    && n !in s.order[s.pos..]
    && forall t :: t in s.producers ==> s.producers[t].node != n
  }

  predicate Enabled(s: State, a: Action) {
    match a
    case Store(t, id) => s.pos <= |s.order| && t !in s.producers && Free(s, Item(id))
    case Swap(t) => t in s.producers && s.producers[t].Cleared?
    case Link(t) => t in s.producers && s.producers[t].Swapped?
    case PopLoad => s.pop == Outside
    case PopSkip => s.pop == Skipped
    case PopHead => s.pop == CheckHead
    case PopStubStore => s.pop == StubStore
    case PopStubSwap => s.pop == StubSwap
    case PopStubLink => s.pop.StubLink?
    case PopReload => s.pop == Reload
  }

  /** The consumer moves the tail on to `n`. */
  function Advance(s: State, n: Node, pop: PopPc): State {
    s.(tail := n, pos := s.pos + 1, pop := pop)
  }

  function Effect(s: State, a: Action): State
    requires a.Swap? ==> a.t in s.producers && s.producers[a.t].Cleared?
    requires a.Link? ==> a.t in s.producers && s.producers[a.t].Swapped?
    requires a.PopStubLink? ==> s.pop.StubLink?
  {
    match a
    case Store(t, id) =>
      s.(next := s.next - {Item(id)}, producers := s.producers[t := Cleared(Item(id))])
    case Swap(t) =>
      var n := s.producers[t].node;
      s.(head := n,
         producers := s.producers[t := Swapped(n, s.head, |s.order|)],
         order := s.order + [n])
    case Link(t) =>
      s.(next := s.next[s.producers[t].prev := s.producers[t].node],
         producers := s.producers - {t})
    case PopLoad =>
      (match Load(s, s.tail)
       case None => if s.tail == Stub then s else s.(pop := CheckHead)
       case Some(n) => Advance(s, n, if s.tail == Stub then Skipped else Outside))
    case PopSkip =>
      (match Load(s, s.tail)
       case None => s.(pop := CheckHead)
       case Some(n) => Advance(s, n, Outside))
    case PopHead =>
      s.(pop := if s.head != s.tail then Outside else StubStore)
    case PopStubStore =>
      s.(next := s.next - {Stub}, pop := StubSwap)
    case PopStubSwap =>
      s.(head := Stub, order := s.order + [Stub], pop := StubLink(s.head, |s.order|))
    case PopStubLink =>
      s.(next := s.next[s.pop.prev := Stub], pop := Reload)
    case PopReload =>
      (match Load(s, s.tail)
       case None => s.(pop := Outside)
       case Some(n) => Advance(s, n, Outside))
  }

  /** One step: the effect, and the history of overlapping pushes brought up to date. */
  function Step(s: State, a: Action): State
    requires Enabled(s, a)
  {
    var s' := Effect(s, a);
    s'.(overlap := (if a == PopLoad then false else s.overlap) || MidPush(s'))
  }

  /** What `pop` answers, if this step completes it. */
  function Answered(s: State, a: Action): Option<Answer> {
    match a
    case PopLoad =>
      (match Load(s, s.tail)
       case None => if s.tail == Stub then Some(Empty) else None
       case Some(n) => if s.tail == Stub then None else Some(Value(s.tail)))
    case PopSkip => if Load(s, s.tail).Some? then Some(Value(s.tail)) else None
    case PopHead => if s.head != s.tail then Some(Inconsistent) else None
    case PopReload => if Load(s, s.tail).Some? then Some(Value(s.tail)) else Some(Empty)
    case _ => None
  }

  // ----- the abstract queue

  /** The items among a sequence of nodes. */
  function Items(ns: seq<Node>): seq<nat> {
    if ns == [] then []
    else if ns[0] == Stub then Items(ns[1..])
    else [ns[0].id] + Items(ns[1..])
  }

  /** The items that were swapped in and not popped yet. */
  function Pending(s: State): seq<nat>
    requires s.pos <= |s.order|
  {
    Items(s.order[s.pos..])
  }

  lemma {:induction false} ItemsAppend(a: seq<Node>, b: seq<Node>)
    ensures Items(a + b) == Items(a) + Items(b)
  {
    if a == [] {
      assert a + b == b;
    } else {
      assert (a + b)[1..] == a[1..] + b;
      ItemsAppend(a[1..], b);
    }
  }

  lemma {:induction false} ItemsMembers(ns: seq<Node>, id: nat)
    ensures id in Items(ns) <==> Item(id) in ns
  {
    if ns != [] {
      ItemsMembers(ns[1..], id);
      assert ns == [ns[0]] + ns[1..];
    }
  }

  // ----- the invariant

  /** The link from `order[i]` to `order[i + 1]` is still to be written, by the thread that swapped. */
  ghost predicate Outstanding(s: State, i: int) {
    || (exists t :: t in s.producers && s.producers[t].Swapped? && s.producers[t].at == i + 1)
    || (s.pop.StubLink? && s.pop.at == i + 1)
  }

  /** Chain position `i` is linked to its successor, or that link is outstanding. */
  ghost predicate Joined(s: State, i: int)
    requires 0 <= i < |s.order| - 1
  {
    if s.order[i] in s.next then s.next[s.order[i]] == s.order[i + 1] else Outstanding(s, i)
  }

  ghost predicate ChainOk(s: State) {
    && s.pos < |s.order|
    && s.tail == s.order[s.pos]
    && s.head == s.order[|s.order| - 1]
    && s.head !in s.next
    && (forall i, j :: s.pos <= i < j < |s.order| ==> s.order[i] != s.order[j])
    && (forall i :: s.pos <= i < |s.order| - 1 ==> Joined(s, i))
  }

  /** A swap recorded at index `at` linked nothing yet, and its predecessor has not been passed. */
  ghost predicate LinkOk(s: State, n: Node, prev: Node, at: nat) {
    && s.pos < at < |s.order|
    && s.order[at] == n
    && s.order[at - 1] == prev
    && prev !in s.next
  }

  ghost predicate ProducerOk(s: State, p: PushPc)
    requires s.pos <= |s.order|
  {
    && p.node.Item?
    && match p
       case Cleared(n) => n !in s.next && n !in s.order[s.pos..]
       case Swapped(n, prev, at) => LinkOk(s, n, prev, at)
  }

  ghost predicate ProducersOk(s: State)
    requires s.pos <= |s.order|
  {
    && (forall t :: t in s.producers ==> ProducerOk(s, s.producers[t]))
    && (forall t, u :: t in s.producers && u in s.producers && t != u
          ==> s.producers[t].node != s.producers[u].node)
  }

  ghost predicate PopOk(s: State)
    requires s.pos <= |s.order|
  {
    && (s.pop != Outside ==> s.tail != Stub)
    && (s.pop in {Skipped, StubStore, StubSwap} ==> Stub !in s.order[s.pos..])
    && (s.pop == StubSwap ==> Stub !in s.next)
    && (s.pop.StubLink? ==> LinkOk(s, Stub, s.pop.prev, s.pop.at))
    && (s.pop.StubLink? || s.pop == Reload ==> s.pos + 1 < |s.order|)
  }

  ghost predicate OverlapOk(s: State) {
    && (s.pop != Outside && MidPush(s) ==> s.overlap)
    && (s.pop == CheckHead && s.pos + 1 < |s.order| ==> s.overlap)
  }

  ghost predicate Inv(s: State) {
    ChainOk(s) && ProducersOk(s) && PopOk(s) && OverlapOk(s)
  }

  lemma InitInv()
    ensures Inv(Init())
  {
  }

  /** A link that is outstanding stays so when no producer swaps or links. */
  lemma StillOutstanding(s: State, s': State, i: int)
    requires Outstanding(s, i)
    requires forall t :: t in s.producers && s.producers[t].Swapped? && s.producers[t].at == i + 1
                ==> t in s'.producers && s'.producers[t] == s.producers[t]
    requires s.pop.StubLink? && s.pop.at == i + 1 ==> s'.pop == s.pop
    ensures Outstanding(s', i)
  {
    if t :| t in s.producers && s.producers[t].Swapped? && s.producers[t].at == i + 1 {
      assert s'.producers[t].at == i + 1;
    }
  }

  // A producer clears the next pointer of a free node.

  lemma StoreChain(s: State, t: Tid, id: nat)
    requires Inv(s) && Enabled(s, Store(t, id))
    ensures ChainOk(Step(s, Store(t, id)))
  {
    var s' := Step(s, Store(t, id));
    forall i | s'.pos <= i < |s'.order| - 1
      ensures Joined(s', i)
    {
      assert Joined(s, i) && s.order[i] in s.order[s.pos..];
      if s.order[i] !in s.next {
        StillOutstanding(s, s', i);
      }
    }
  }

  lemma StoreRest(s: State, t: Tid, id: nat)
    requires Inv(s) && Enabled(s, Store(t, id))
    ensures ProducersOk(Step(s, Store(t, id))) && PopOk(Step(s, Store(t, id)))
    ensures OverlapOk(Step(s, Store(t, id)))
  {
    var s' := Step(s, Store(t, id));
    assert s'.order[s'.pos..] == s.order[s.pos..];
    forall u | u in s'.producers
      ensures ProducerOk(s', s'.producers[u])
    {
      if u != t {
        assert ProducerOk(s, s.producers[u]);
      }
    }
    MidPushOf(s', s);
  }

  /** Which producers are mid-push does not depend on the consumer. */
  lemma MidPushOf(s: State, s0: State)
    requires forall t :: t in s.producers && s.producers[t].Swapped? ==> t in s0.producers && s0.producers[t].Swapped?
    ensures MidPush(s) ==> MidPush(s0)
  {
    if t :| t in s.producers && s.producers[t].Swapped? {
      assert s0.producers[t].Swapped?;
    }
  }

  // A producer swaps the head.

  lemma SwapChain(s: State, t: Tid)
    requires Inv(s) && Enabled(s, Swap(t))
    ensures ChainOk(Step(s, Swap(t)))
  {
    var s' := Step(s, Swap(t));
    var n := s.producers[t].node;
    assert ProducerOk(s, s.producers[t]);
    forall i | s.pos <= i < |s.order|
      ensures s.order[i] != n
    {
      assert s.order[i] in s.order[s.pos..];
    }
    forall i | s'.pos <= i < |s'.order| - 1
      ensures Joined(s', i)
    {
      if i == |s.order| - 1 {
        assert s'.producers[t].Swapped? && s'.producers[t].at == i + 1;
      } else {
        assert Joined(s, i);
        if s.order[i] !in s.next {
          StillOutstanding(s, s', i);
        }
      }
    }
  }

  lemma SwapRest(s: State, t: Tid)
    requires Inv(s) && Enabled(s, Swap(t))
    ensures ProducersOk(Step(s, Swap(t))) && PopOk(Step(s, Swap(t)))
    ensures OverlapOk(Step(s, Swap(t)))
  {
    var s' := Step(s, Swap(t));
    assert ProducerOk(s, s.producers[t]);
    assert s'.order[s'.pos..] == s.order[s.pos..] + [s.producers[t].node];
    forall u | u in s'.producers
      ensures ProducerOk(s', s'.producers[u])
    {
      assert ProducerOk(s, s.producers[u]);
    }
    assert s'.producers[t].Swapped?;
  }

  // A producer links its predecessor to its node.

  lemma LinkChain(s: State, t: Tid)
    requires Inv(s) && Enabled(s, Link(t))
    ensures ChainOk(Step(s, Link(t)))
  {
    var s' := Step(s, Link(t));
    var p := s.producers[t];
    assert ProducerOk(s, p);
    forall i | s'.pos <= i < |s'.order| - 1
      ensures Joined(s', i)
    {
      assert Joined(s, i);
      if i != p.at - 1 && s.order[i] !in s.next {
        StillOutstanding(s, s', i);
      }
    }
  }

  lemma LinkRest(s: State, t: Tid)
    requires Inv(s) && Enabled(s, Link(t))
    ensures ProducersOk(Step(s, Link(t))) && PopOk(Step(s, Link(t)))
    ensures OverlapOk(Step(s, Link(t)))
  {
    var s' := Step(s, Link(t));
    var p := s.producers[t];
    assert ProducerOk(s, p);
    assert p.prev in s.order[s.pos..] by {
      assert s.order[p.at - 1] == p.prev;
    }
    forall u | u in s'.producers
      ensures ProducerOk(s', s'.producers[u])
    {
      assert ProducerOk(s, s.producers[u]) && s.producers[u].node != p.node;
    }
    MidPushOf(s', s);
  }

  // The consumer.

  /** What the consumer loads from the tail is the next node of `order`. */
  lemma LoadedIsNext(s: State)
    requires Inv(s)
    ensures Load(s, s.tail).Some? ==> s.pos + 1 < |s.order| && s.next[s.tail] == s.order[s.pos + 1]
    ensures Load(s, s.tail).None? && s.pos + 1 < |s.order| ==> Outstanding(s, s.pos)
  {
    if s.pos + 1 < |s.order| {
      assert Joined(s, s.pos);
    }
  }

  lemma AdvanceChain(s: State, n: Node, pop: PopPc)
    requires Inv(s) && Load(s, s.tail) == Some(n) && !s.pop.StubLink?
    ensures ChainOk(Advance(s, n, pop))
  {
    var s' := Advance(s, n, pop);
    LoadedIsNext(s);
    forall i | s'.pos <= i < |s'.order| - 1
      ensures Joined(s', i)
    {
      assert Joined(s, i);
      if s.order[i] !in s.next {
        StillOutstanding(s, s', i);
      }
    }
  }

  lemma AdvanceRest(s: State, n: Node, pop: PopPc)
    requires Inv(s) && Load(s, s.tail) == Some(n) && !s.pop.StubLink?
    requires pop == Outside || (pop == Skipped && s.tail == Stub)
    ensures ProducersOk(Advance(s, n, pop)) && PopOk(Advance(s, n, pop))
  {
    var s' := Advance(s, n, pop);
    LoadedIsNext(s);
    assert s.order[s.pos..] == [s.tail] + s'.order[s'.pos..];
    forall u | u in s'.producers
      ensures ProducerOk(s', s'.producers[u])
    {
      assert ProducerOk(s, s.producers[u]);
    }
  }

  lemma StubStoreInv(s: State)
    requires Inv(s) && Enabled(s, PopStubStore)
    ensures Inv(Step(s, PopStubStore))
  {
    var s' := Step(s, PopStubStore);
    assert s'.order[s'.pos..] == s.order[s.pos..];
    forall i | s'.pos <= i < |s'.order| - 1
      ensures Joined(s', i)
    {
      assert Joined(s, i) && s.order[i] in s.order[s.pos..];
      if s.order[i] !in s.next {
        StillOutstanding(s, s', i);
      }
    }
    forall u | u in s'.producers
      ensures ProducerOk(s', s'.producers[u])
    {
      assert ProducerOk(s, s.producers[u]);
    }
    MidPushOf(s', s);
  }

  lemma StubSwapChain(s: State)
    requires Inv(s) && Enabled(s, PopStubSwap)
    ensures ChainOk(Step(s, PopStubSwap))
  {
    var s' := Step(s, PopStubSwap);
    forall i | s.pos <= i < |s.order|
      ensures s.order[i] != Stub
    {
      assert s.order[i] in s.order[s.pos..];
    }
    forall i | s'.pos <= i < |s'.order| - 1
      ensures Joined(s', i)
    {
      if i != |s.order| - 1 {
        assert Joined(s, i);
        if s.order[i] !in s.next {
          StillOutstanding(s, s', i);
        }
      }
    }
  }

  lemma StubSwapRest(s: State)
    requires Inv(s) && Enabled(s, PopStubSwap)
    ensures ProducersOk(Step(s, PopStubSwap)) && PopOk(Step(s, PopStubSwap))
    ensures OverlapOk(Step(s, PopStubSwap))
  {
    var s' := Step(s, PopStubSwap);
    assert s'.order[s'.pos..] == s.order[s.pos..] + [Stub];
    forall u | u in s'.producers
      ensures ProducerOk(s', s'.producers[u])
    {
      assert ProducerOk(s, s.producers[u]);
    }
    MidPushOf(s', s);
  }

  lemma StubLinkChain(s: State)
    requires Inv(s) && Enabled(s, PopStubLink)
    ensures ChainOk(Step(s, PopStubLink))
  {
    var s' := Step(s, PopStubLink);
    forall i | s'.pos <= i < |s'.order| - 1
      ensures Joined(s', i)
    {
      assert Joined(s, i);
      if i != s.pop.at - 1 && s.order[i] !in s.next {
        StillOutstanding(s, s', i);
      }
    }
  }

  lemma StubLinkRest(s: State)
    requires Inv(s) && Enabled(s, PopStubLink)
    ensures ProducersOk(Step(s, PopStubLink)) && PopOk(Step(s, PopStubLink))
    ensures OverlapOk(Step(s, PopStubLink))
  {
    var s' := Step(s, PopStubLink);
    assert s.pop.prev in s.order[s.pos..] by {
      assert s.order[s.pop.at - 1] == s.pop.prev;
    }
    forall u | u in s'.producers
      ensures ProducerOk(s', s'.producers[u])
    {
      assert ProducerOk(s, s.producers[u]);
    }
    MidPushOf(s', s);
  }

  /** The history of overlapping pushes bears on nothing but itself. */
  lemma HistoryOnly(s: State, overlap: bool)
    requires ChainOk(s) && ProducersOk(s) && PopOk(s)
    ensures ChainOk(s.(overlap := overlap)) && ProducersOk(s.(overlap := overlap)) && PopOk(s.(overlap := overlap))
  {
    var s' := s.(overlap := overlap);
    forall i | s'.pos <= i < |s'.order| - 1
      ensures Joined(s', i)
    {
      assert Joined(s, i);
      if s.order[i] !in s.next {
        StillOutstanding(s, s', i);
      }
    }
    forall u | u in s'.producers
      ensures ProducerOk(s', s'.producers[u])
    {
      assert ProducerOk(s, s.producers[u]);
    }
  }

  /** Moving between places of `pop` that hold no link keeps the chain. */
  lemma MoveOn(s: State, pop: PopPc)
    requires ChainOk(s) && ProducersOk(s) && !s.pop.StubLink? && !pop.StubLink?
    ensures ChainOk(s.(pop := pop)) && ProducersOk(s.(pop := pop))
  {
    var s' := s.(pop := pop);
    forall i | s'.pos <= i < |s'.order| - 1
      ensures Joined(s', i)
    {
      assert Joined(s, i);
      if s.order[i] !in s.next {
        StillOutstanding(s, s', i);
      }
    }
    forall u | u in s'.producers
      ensures ProducerOk(s', s'.producers[u])
    {
      assert ProducerOk(s, s.producers[u]);
    }
  }

  lemma LoadedInv(s: State, a: Action)
    requires Inv(s) && Enabled(s, a) && a in {PopLoad, PopSkip, PopReload} && Load(s, s.tail).Some?
    ensures Inv(Step(s, a))
  {
    var s' := Step(s, a);
    var pop := if a == PopLoad && s.tail == Stub then Skipped else Outside;
    var s1 := Advance(s, Load(s, s.tail).value, pop);
    AdvanceChain(s, s1.tail, pop);
    AdvanceRest(s, s1.tail, pop);
    HistoryOnly(s1, s'.overlap);
    assert s' == s1.(overlap := s'.overlap);
  }

  lemma NullLoadedInv(s: State, a: Action)
    requires Inv(s) && Enabled(s, a) && a in {PopLoad, PopSkip, PopReload} && Load(s, s.tail).None?
    ensures Inv(Step(s, a))
  {
    var s' := Step(s, a);
    var s1 := s.(pop := s'.pop);
    LoadedIsNext(s);
    MoveOn(s, s'.pop);
    HistoryOnly(s1, s'.overlap);
    assert s' == s1.(overlap := s'.overlap);
    MidPushOf(s, s');
  }

  lemma PopHeadInv(s: State)
    requires Inv(s) && Enabled(s, PopHead)
    ensures Inv(Step(s, PopHead))
  {
    var s' := Step(s, PopHead);
    var s1 := s.(pop := s'.pop);
    MoveOn(s, s'.pop);
    HistoryOnly(s1, s'.overlap);
    assert s' == s1.(overlap := s'.overlap);
    MidPushOf(s', s);
    assert s'.pop == StubStore ==> s'.order[s'.pos..] == [s.tail];
  }

  /** The invariant is inductive: it holds at the start and every step keeps it. */
  lemma StepInv(s: State, a: Action)
    requires Inv(s) && Enabled(s, a)
    ensures Inv(Step(s, a))
  {
    match a
    case Store(t, id) => StoreChain(s, t, id); StoreRest(s, t, id);
    case Swap(t) => SwapChain(s, t); SwapRest(s, t);
    case Link(t) => LinkChain(s, t); LinkRest(s, t);
    case PopStubStore => StubStoreInv(s);
    case PopStubSwap => StubSwapChain(s); StubSwapRest(s);
    case PopStubLink => StubLinkChain(s); StubLinkRest(s);
    case PopHead => PopHeadInv(s);
    case _ => if Load(s, s.tail).Some? { LoadedInv(s, a); } else { NullLoadedInv(s, a); }
  }
}
