/**
 Who holds a count of a task, and who is entitled to its queue entry.  Every step moves these of at
 most one task, which is what keeps the strong counts and the `queued` flags right.
 */
module SchedularHolders {
  import opened Wrappers
  import opened Schedular
  import opened SchedularPlaces
  import opened SchedularInv
  import Q = Queue
  import W = AtomicWaker

  /** A holder of one strong count of a task. */
  datatype Holder =
    | AllList
    | Entry
    | Token
    | Handle(h: HandleId)
    | Thread(u: Tid)
    | Frame(i: nat)
    | Poller
    | Leaked

  /** The operation of thread `u` won its task's `queued` flag and has not put it in the queue yet. */
  predicate OpClaims(s: Sys, u: Tid) {
    && u in s.ops
    && match s.ops[u]
       case TryQueue(_, _) => false
       case Upgrade(_, _) => true
       case Release(_, _) => false
       case Signal(_, kind) => kind == Cancel
       case Waking(_, kind) => kind == Cancel
       case Store(_, _) => true
       case Push(_, _) => u in s.q.producers && s.q.producers[u].Cleared?
  }

  predicate OpOwns(s: Sys, u: Tid) {
    u in s.ops && (s.ops[u].TryQueue? || s.ops[u].Release? || OpClaims(s, u))
  }

  predicate PollerOwns(b: Base, t: TaskId) {
    b == Got(t) || b == Driving(t) || b == Removing(t, true) || b == Dropping(t, true) || b == Dropping(t, false)
    || b == ClearGot(t)
  }

  predicate IsHolder(s: Sys, t: TaskId, h: Holder) {
    match h
    case AllList => t in s.all
    case Entry => InChain(s.q, Q.Item(t))
    case Token => t in s.tokens
    case Handle(k) => k in s.handles && s.handles[k] == t
    case Thread(u) => OpOwns(s, u) && s.ops[u].task == t
    case Frame(i) => i < |s.frames| && s.frames[i] == t
    case Poller => PollerOwns(s.base, t)
    case Leaked => t in s.leaked
  }

  /** The holders whose count is the one that goes with a queue entry. */
  predicate Claims(s: Sys, t: TaskId, h: Holder) {
    match h
    case Entry => InChain(s.q, Q.Item(t))
    case Thread(u) => OpClaims(s, u) && s.ops[u].task == t
    case Poller => s.base == Got(t) || s.base == ClearGot(t)
    case _ => false
  }

  function Candidates(s: Sys): set<Holder> {
    {AllList, Entry, Token, Poller, Leaked}
    + (set k | k in s.handles :: Handle(k))
    + (set u | u in s.ops :: Thread(u))
    + (set i | 0 <= i < |s.frames| :: Frame(i))
  }

  /** All holders of a count of task `t`. */
  function Holders(s: Sys, t: TaskId): set<Holder> {
    set h | h in Candidates(s) && IsHolder(s, t, h)
  }

  lemma HolderIff(s: Sys, t: TaskId, h: Holder)
    ensures h in Holders(s, t) <==> IsHolder(s, t, h)
  {
    if IsHolder(s, t, h) {
      match h
      case Handle(k) => assert h in (set k | k in s.handles :: Handle(k));
      case Thread(u) => assert h in (set u | u in s.ops :: Thread(u));
      case Frame(i) => assert h in (set i | 0 <= i < |s.frames| :: Frame(i));
      case _ =>
    }
  }

  // ----- moves

  ghost predicate Moved(s: Sys, s': Sys, t: TaskId, lost: set<Holder>, gained: set<Holder>) {
    && (forall h :: h in lost ==> IsHolder(s, t, h))
    && (forall h :: h in gained ==> !IsHolder(s, t, h))
    && (forall x: TaskId, h: Holder :: IsHolder(s', x, h) <==>
          (x == t && h in gained) || (IsHolder(s, x, h) && (x == t ==> h !in lost)))
  }

  ghost predicate ClaimMoved(s: Sys, s': Sys, t: TaskId, lost: set<Holder>, gained: set<Holder>) {
    && (forall h :: h in lost ==> Claims(s, t, h))
    && (forall x: TaskId, h: Holder :: Claims(s', x, h) <==>
          (x == t && h in gained) || (Claims(s, x, h) && (x == t ==> h !in lost)))
  }

  // ----- the counts

  ghost predicate Known(s: Sys) {
    forall t: TaskId, h: Holder :: IsHolder(s, t, h) ==> t in s.tasks
  }

  /** The strong count of every task is the number of its holders. */
  ghost predicate CountsOk(s: Sys) {
    && Known(s)
    && forall t :: t in s.tasks ==> s.tasks[t].count == |Holders(s, t)|
  }

  /** At most the record of task `t` changed, and its count by `d`. */
  ghost predicate RecordMoved(s: Sys, s': Sys, t: TaskId, d: int) {
    && s'.tasks.Keys == s.tasks.Keys + (if d == 0 then {} else {t})
    && (forall x :: x in s.tasks && x != t ==> s'.tasks[x] == s.tasks[x])
    && (t in s'.tasks ==> s'.tasks[t].count == (if t in s.tasks then s.tasks[t].count else 0) + d)
  }

  lemma HoldersMoved(s: Sys, s': Sys, t: TaskId, lost: set<Holder>, gained: set<Holder>, x: TaskId)
    requires Moved(s, s', t, lost, gained)
    ensures x != t ==> Holders(s', x) == Holders(s, x)
    ensures x == t ==> |Holders(s', x)| == |Holders(s, x)| + |gained| - |lost|
  {
    hide Holders, IsHolder;
    forall h ensures h in Holders(s, x) <==> IsHolder(s, x, h) { HolderIff(s, x, h); }
    forall h ensures h in Holders(s', x) <==> IsHolder(s', x, h) { HolderIff(s', x, h); }
    if x == t {
      assert Holders(s', x) == (Holders(s, x) - lost) + gained;
      assert lost <= Holders(s, x) && gained !! Holders(s, x);
      assert |Holders(s, x) - lost| == |Holders(s, x)| - |lost|;
    }
  }

  lemma CountsKept(s: Sys, s': Sys, t: TaskId, lost: set<Holder>, gained: set<Holder>)
    requires CountsOk(s) && Moved(s, s', t, lost, gained)
    requires RecordMoved(s, s', t, |gained| - |lost|)
    requires gained != {} ==> t in s'.tasks
    ensures CountsOk(s')
  {
    hide Holders, IsHolder;
    forall x: TaskId, h: Holder | IsHolder(s', x, h) ensures x in s'.tasks {
      if !(x == t && h in gained) {
        assert IsHolder(s, x, h);
      }
    }
    forall x | x in s'.tasks ensures s'.tasks[x].count == |Holders(s', x)| {
      HoldersMoved(s, s', t, lost, gained, x);
      if x !in s.tasks {
        NoHolders(s, x);
      }
    }
  }

  lemma NoHolders(s: Sys, x: TaskId)
    requires Known(s) && x !in s.tasks
    ensures Holders(s, x) == {}
  {
    hide Holders, IsHolder;
    forall h ensures h !in Holders(s, x) { HolderIff(s, x, h); }
  }

  // ----- the flags

  /**
   A task has at most one claim to a queue entry, it has one only while its flag is set, and the flag
   of a task that is not done is only set while it has one.
   */
  ghost predicate ClaimsOk(s: Sys) {
    && (forall t: TaskId, h: Holder :: Claims(s, t, h) ==> t in s.tasks && s.tasks[t].queued)
    && (forall t: TaskId, h: Holder, k: Holder :: Claims(s, t, h) && Claims(s, t, k) ==> h == k)
    && (forall t :: t in s.tasks && s.tasks[t].queued && !s.tasks[t].done.Done? ==> HasClaim(s, t))
  }

  ghost predicate HasClaim(s: Sys, t: TaskId) {
    exists h: Holder :: Claims(s, t, h)
  }

  ghost predicate AllLost(s: Sys, t: TaskId, lost: set<Holder>) {
    forall h: Holder :: Claims(s, t, h) ==> h in lost
  }

  /** A task whose flag is set gets no claim it did not have. */
  ghost predicate NoNewClaims(s: Sys, s': Sys) {
    forall x :: x in s.tasks && s.tasks[x].queued && !HasClaim(s, x) ==> !HasClaim(s', x)
  }

  /** The flag of `t` agrees with how its claims moved. */
  ghost predicate FlagMoved(s: Sys, s': Sys, t: TaskId, lost: set<Holder>, gained: set<Holder>) {
    if t !in s'.tasks then lost == {} && gained == {}
    else
      && (gained != {} ==> s'.tasks[t].queued && AllLost(s, t, lost))
      && (gained == {} ==> s'.tasks[t].queued || AllLost(s, t, lost))
      && (s'.tasks[t].queued && !s'.tasks[t].done.Done? ==>
            gained != {} || (lost == {} && t in s.tasks && s.tasks[t].queued && !s.tasks[t].done.Done?))
      && (gained != {} && lost == {} ==> t !in s.tasks || !s.tasks[t].queued)
  }

  lemma AtMostOne(hs: set<Holder>, h: Holder, k: Holder)
    requires |hs| <= 1 && h in hs && k in hs
    ensures h == k
  {
    assert |hs - {h}| == |hs| - 1;
  }

  lemma ClaimsKept(s: Sys, s': Sys, t: TaskId, lost: set<Holder>, gained: set<Holder>, d: int)
    requires ClaimsOk(s) && ClaimMoved(s, s', t, lost, gained) && RecordMoved(s, s', t, d)
    requires |gained| <= 1 && FlagMoved(s, s', t, lost, gained)
    ensures ClaimsOk(s') && NoNewClaims(s, s')
  {
    hide Claims;
    forall x | x in s.tasks && s.tasks[x].queued && HasClaim(s', x)
      ensures HasClaim(s, x)
    {
      var h: Holder :| Claims(s', x, h);
      if x == t && h in gained {
        assert lost != {};
        var l :| l in lost;
        assert Claims(s, x, l);
      } else {
        assert Claims(s, x, h);
      }
    }
    forall x: TaskId, h: Holder | Claims(s', x, h)
      ensures x in s'.tasks && s'.tasks[x].queued
    {
      if !(x == t && h in gained) { assert Claims(s, x, h); }
    }
    forall x: TaskId, h: Holder, k: Holder | Claims(s', x, h) && Claims(s', x, k)
      ensures h == k
    {
      if x == t && h in gained && k in gained {
        AtMostOne(gained, h, k);
      }
    }
    forall x | x in s'.tasks && s'.tasks[x].queued && !s'.tasks[x].done.Done?
      ensures HasClaim(s', x)
    {
      if x == t && gained != {} {
        var g :| g in gained;
        assert Claims(s', x, g);
      } else {
        assert HasClaim(s, x);
        var h: Holder :| Claims(s, x, h);
        assert Claims(s', x, h);
      }
    }
  }

  /** A task's only claim is all it can lose. */
  lemma OnlyClaim(s: Sys, t: TaskId, h: Holder)
    requires ClaimsOk(s) && Claims(s, t, h)
    ensures AllLost(s, t, {h})
  {
  }

  /** Without a set flag there is no claim. */
  lemma NoClaim(s: Sys, t: TaskId, lost: set<Holder>)
    requires ClaimsOk(s) && (t !in s.tasks || !s.tasks[t].queued)
    ensures AllLost(s, t, lost)
  {
  }

  // ----- the moves of each effect

  lemma CloneMoves(s: Sys, t: TaskId, to: HandleId)
    requires t in s.tasks && to !in s.handles
    ensures Moved(s, CloneEffect(s, t, to), t, {}, {Handle(to)})
    ensures ClaimMoved(s, CloneEffect(s, t, to), t, {}, {})
  {
  }

  lemma DropMoves(s: Sys, h: HandleId)
    requires h in s.handles && s.handles[h] in s.tasks
    ensures Moved(s, DropEffect(s, h), s.handles[h], {Handle(h)}, {})
    ensures ClaimMoved(s, DropEffect(s, h), s.handles[h], {}, {})
  {
  }

  lemma StartWakeMoves(s: Sys, h: HandleId, u: Tid)
    requires h in s.handles && u !in s.ops
    ensures Moved(s, StartWakeEffect(s, h, u), s.handles[h], {Handle(h)}, {Thread(u)})
    ensures ClaimMoved(s, StartWakeEffect(s, h, u), s.handles[h], {}, {})
  {
  }

  lemma TryQueueMoves(s: Sys, u: Tid)
    requires u in s.ops && s.ops[u].TryQueue? && s.ops[u].task in s.tasks
    ensures var t := s.ops[u].task;
            var s' := TryQueueEffect(s, u, t, s.ops[u].kind);
            && Moved(s, s', t, {}, {})
            && ClaimMoved(s, s', t, {}, if s.tasks[t].queued then {} else {Thread(u)})
  {
  }

  lemma UpgradeMoves(s: Sys, u: Tid)
    requires u in s.ops && s.ops[u].Upgrade? && s.ops[u].kind != New
    ensures var s' := UpgradeEffect(s, u, s.ops[u].task, s.ops[u].kind);
            && Moved(s, s', s.ops[u].task, {}, {})
            && ClaimMoved(s, s', s.ops[u].task, if QueueHeld(s) then {} else {Thread(u)}, {})
  {
    hide QueueHeld;
  }

  lemma ReleaseMoves(s: Sys, u: Tid)
    requires u in s.ops && s.ops[u].Release? && s.ops[u].task in s.tasks
    ensures Moved(s, ReleaseEffect(s, u, s.ops[u].task), s.ops[u].task, {Thread(u)}, {})
    ensures ClaimMoved(s, ReleaseEffect(s, u, s.ops[u].task), s.ops[u].task, {}, {})
  {
  }

  lemma SignalMoves(s: Sys, u: Tid)
    requires u in s.ops && s.ops[u].Signal? && s.ops[u].kind != New && W.Enabled(s.w, W.FetchOr(u))
    ensures Moved(s, SignalEffect(s, u), 0, {}, {}) && ClaimMoved(s, SignalEffect(s, u), 0, {}, {})
  {
    hide W.Step, W.Enabled;
  }

  lemma WakingMoves(s: Sys, u: Tid)
    requires u in s.ops && s.ops[u].Waking? && s.ops[u].kind != New && W.Enabled(s.w, WakeAction(s, u))
    ensures Moved(s, WakingEffect(s, u), 0, {}, {}) && ClaimMoved(s, WakingEffect(s, u), 0, {}, {})
  {
    hide W.Step, W.Enabled, WakeAction;
  }

  lemma StoreMoves(s: Sys, u: Tid)
    requires u in s.ops && s.ops[u].Store? && Q.Enabled(s.q, Q.Store(u, s.ops[u].task))
    requires Components(s)
    ensures Moved(s, StoreEffect(s, u, s.ops[u].task, s.ops[u].kind), 0, {}, {})
    ensures ClaimMoved(s, StoreEffect(s, u, s.ops[u].task, s.ops[u].kind), 0, {}, {})
  {
    var a := Q.Store(u, s.ops[u].task);
    QueuePlaces(s.q, a);
    ChainStep(s.q, a);
    hide Q.Step, Q.Enabled, Q.Inv, W.Inv, InChain;
  }

  lemma ClearedNotInChain(q: Q.State, u: Tid)
    requires Q.Inv(q) && u in q.producers && q.producers[u].Cleared?
    ensures !InChain(q, q.producers[u].node)
  {
    assert Q.ProducerOk(q, q.producers[u]);
  }

  /** A step of the queue for the operation of `u`, seen from everything else. */
  ghost predicate QueueOp(s: Sys, s': Sys, u: Tid) {
    && s'.all == s.all && s'.tokens == s.tokens && s'.handles == s.handles && s'.frames == s.frames
    && s'.base == s.base && s'.leaked == s.leaked && s'.tasks == s.tasks
    && (forall v :: v != u ==> (v in s'.ops <==> v in s.ops))
    && (forall v :: v != u && v in s.ops ==> s'.ops[v] == s.ops[v])
    && (forall v :: v != u ==> (OpClaims(s', v) <==> OpClaims(s, v)))
  }

  lemma PushIsQueueOp(s: Sys, u: Tid)
    requires u in s.ops && s.ops[u].Push? && u in s.q.producers
    ensures Q.Enabled(s.q, PushAction(s, u))
    ensures QueueOp(s, PushEffect(s, u), u)
  {
    PushLeavesOthers(s, u);
    PushFields(s, u);
    hide Q.Step, Q.Enabled, PushAction, PushEffect;
  }

  lemma PushFields(s: Sys, u: Tid)
    requires u in s.ops && Q.Enabled(s.q, PushAction(s, u))
    ensures var s' := PushEffect(s, u);
      && s'.q == Q.Step(s.q, PushAction(s, u)) && s'.w == s.w && s'.hist == s.hist
      && s'.all == s.all && s'.tokens == s.tokens && s'.handles == s.handles && s'.frames == s.frames
      && s'.base == s.base && s'.leaked == s.leaked && s'.tasks == s.tasks
      && (forall v :: v != u ==> (v in s'.ops <==> v in s.ops))
      && (forall v :: v != u && v in s.ops ==> s'.ops[v] == s.ops[v])
  {
    hide Q.Step, Q.Enabled, PushAction, AfterPush;
  }

  /** A step of a push changes the place of its own thread only. */
  lemma PushLeavesOthers(s: Sys, u: Tid)
    requires u in s.q.producers
    ensures Q.Enabled(s.q, PushAction(s, u))
    ensures var q := Q.Step(s.q, PushAction(s, u));
      forall v :: v != u ==> (v in q.producers <==> v in s.q.producers) &&
                             (v in q.producers ==> q.producers[v] == s.q.producers[v])
  {
    QueuePlaces(s.q, PushAction(s, u));
    hide Q.Step;
  }

  lemma SwapOp(s: Sys, u: Tid)
    requires u in s.ops && s.ops[u].Push? && u in s.q.producers && s.q.producers[u].Cleared?
    ensures PushAction(s, u) == Q.Swap(u) && Q.Enabled(s.q, Q.Swap(u))
    ensures PushEffect(s, u).q == Q.Step(s.q, Q.Swap(u))
    ensures OpClaims(s, u) && !OpOwns(PushEffect(s, u), u) && !OpClaims(PushEffect(s, u), u)
  {
    QueuePlaces(s.q, PushAction(s, u));
    hide Q.Step;
  }

  lemma LinkOp(s: Sys, u: Tid)
    requires u in s.ops && s.ops[u].Push? && u in s.q.producers && s.q.producers[u].Swapped?
    ensures PushAction(s, u) == Q.Link(u) && Q.Enabled(s.q, Q.Link(u))
    ensures PushEffect(s, u).q == Q.Step(s.q, Q.Link(u))
    ensures !OpOwns(s, u) && !OpOwns(PushEffect(s, u), u) && !OpClaims(PushEffect(s, u), u)
  {
    QueuePlaces(s.q, PushAction(s, u));
    hide Q.Step;
  }

  /** If `swap`, the item `t` is now in the queue instead of in the hands of `u`; else nothing moved. */
  lemma QueueOpMoves(s: Sys, s': Sys, u: Tid, t: TaskId, swap: bool)
    requires QueueOp(s, s', u) && u in s.ops && (swap ==> s.ops[u].task == t && !InChain(s.q, Q.Item(t)))
    requires !OpOwns(s', u) && !OpClaims(s', u) && (if swap then OpClaims(s, u) else !OpOwns(s, u))
    requires forall n: Q.Node :: n.Item? ==> (InChain(s'.q, n) <==> InChain(s.q, n) || (swap && n == Q.Item(t)))
    ensures Moved(s, s', t, if swap then {Thread(u)} else {}, if swap then {Entry} else {})
    ensures ClaimMoved(s, s', t, if swap then {Thread(u)} else {}, if swap then {Entry} else {})
  {
    assert forall v :: OpClaims(s, v) ==> v in s.ops;
    assert forall v :: OpClaims(s', v) ==> v in s'.ops;
    hide InChain, OpClaims;
  }

  /** The head swap: the count of the operation becomes that of the queue entry. */
  lemma SwapMoves(s: Sys, u: Tid)
    requires u in s.ops && s.ops[u].Push? && Components(s) && SyncAt(s, u)
    requires u in s.q.producers && s.q.producers[u].Cleared?
    ensures Q.Enabled(s.q, PushAction(s, u))
    ensures Moved(s, PushEffect(s, u), s.ops[u].task, {Thread(u)}, {Entry})
    ensures ClaimMoved(s, PushEffect(s, u), s.ops[u].task, {Thread(u)}, {Entry})
  {
    SwapOp(s, u);
    PushIsQueueOp(s, u);
    ChainStep(s.q, Q.Swap(u));
    ClearedNotInChain(s.q, u);
    QueueOpMoves(s, PushEffect(s, u), u, s.ops[u].task, true);
  }

  lemma LinkMoves(s: Sys, u: Tid)
    requires u in s.ops && s.ops[u].Push? && Components(s) && SyncAt(s, u)
    requires u in s.q.producers && s.q.producers[u].Swapped?
    ensures Q.Enabled(s.q, PushAction(s, u))
    ensures Moved(s, PushEffect(s, u), 0, {}, {}) && ClaimMoved(s, PushEffect(s, u), 0, {}, {})
  {
    LinkOp(s, u);
    PushIsQueueOp(s, u);
    ChainStep(s.q, Q.Link(u));
    QueueOpMoves(s, PushEffect(s, u), u, 0, false);
  }

  lemma PushTaskMoves(s: Sys, t: TaskId)
    requires t !in s.tasks && Known(s) && CONSUMER !in s.ops
    ensures Moved(s, PushTaskEffect(s, t), t, {}, {AllList, Token, Thread(CONSUMER)})
    ensures ClaimMoved(s, PushTaskEffect(s, t), t, {}, {Thread(CONSUMER)})
  {
    assert !IsHolder(s, t, AllList) && !IsHolder(s, t, Token) && !IsHolder(s, t, Thread(CONSUMER));
  }

  lemma StartCancelMoves(s: Sys, t: TaskId)
    requires t in s.tasks && t in s.tokens && CONSUMER !in s.ops
    ensures var to := if s.tasks[t].done.Running? then Frame(|s.frames|) else Thread(CONSUMER);
            Moved(s, StartCancelEffect(s, t), t, {Token}, {to})
    ensures ClaimMoved(s, StartCancelEffect(s, t), t, {}, {})
  {
    hide InChain;
  }

  lemma EndDropMoves(s: Sys)
    requires s.frames != [] && CONSUMER !in s.ops
    ensures Moved(s, EndDropEffect(s), s.frames[|s.frames| - 1], {Frame(|s.frames| - 1)}, {Thread(CONSUMER)})
    ensures ClaimMoved(s, EndDropEffect(s), s.frames[|s.frames| - 1], {}, {})
  {
    hide InChain;
  }

  lemma StartPollMoves(s: Sys, waker: W.Waker)
    requires s.base.Out? && W.Enabled(s.w, W.Begin(waker))
    ensures Moved(s, StartPollEffect(s, waker), 0, {}, {}) && ClaimMoved(s, StartPollEffect(s, waker), 0, {}, {})
  {
    hide W.Step, InChain;
  }

  lemma RegisterMoves(s: Sys, wa: W.Action)
    requires s.base.Registering? && W.Enabled(s.w, wa)
    ensures Moved(s, RegisterEffect(s, wa), 0, {}, {}) && ClaimMoved(s, RegisterEffect(s, wa), 0, {}, {})
  {
    hide W.Step, W.Enabled, InChain;
  }

  /** Where an answer of `pop` takes the consumer. */
  lemma PopBase(s: Sys, a: Q.Action)
    requires Enabled(s, PopStep(a))
    ensures var s', taken := PopEffect(s, a), Taken(s.q, a);
            && s'.q == Q.Step(s.q, a)
            && (taken.Some? && taken.value.Item? && s.base.Popping? ==> s'.base == Got(taken.value.id))
            && (taken.Some? && taken.value.Item? && !s.base.Popping? ==> s'.base == ClearGot(taken.value.id))
            && (taken.None? ==> s'.base == s.base || s'.base == Out)
  {
    QueuePlaces(s.q, a);
    hide Q.Step, Q.Enabled;
  }

  lemma AnsweredClaims(s: Sys, s': Sys, a: Q.Action, u: Tid)
    requires Enabled(s, PopStep(a)) && s'.q == Q.Step(s.q, a) && s'.ops == s.ops
    ensures OpClaims(s', u) <==> OpClaims(s, u)
  {
    QueuePlaces(s.q, a);
    hide Q.Step, Q.Enabled;
  }

  /** Popping a task moves its count from the queue entry to the poller. */
  lemma PopMoves(s: Sys, a: Q.Action) returns (t: TaskId, lost: set<Holder>, gained: set<Holder>)
    requires Components(s) && Enabled(s, PopStep(a))
    ensures lost == (if Taken(s.q, a).Some? then {Entry} else {})
    ensures gained == (if Taken(s.q, a).Some? then {Poller} else {})
    ensures Taken(s.q, a).Some? ==> Taken(s.q, a) == Some(Q.Item(t)) && InChain(s.q, Q.Item(t))
    ensures Moved(s, PopEffect(s, a), t, lost, gained) && ClaimMoved(s, PopEffect(s, a), t, lost, gained)
  {
    var s' := PopEffect(s, a);
    ChainStep(s.q, a);
    PopShape(s, a);
    PopBase(s, a);
    lost := if Taken(s.q, a).Some? then {Entry} else {};
    gained := if Taken(s.q, a).Some? then {Poller} else {};
    t := if Taken(s.q, a).Some? then Taken(s.q, a).value.id else 0;
    forall u ensures OpClaims(s', u) <==> OpClaims(s, u) { AnsweredClaims(s, s', a, u); }
    assert IsPopAction(a) && Added(s.q, a).None? && (s.base.Popping? || s.base.ClearPop?);
    AnswerMoves(s, s', t, Taken(s.q, a).Some?);
  }

  /** If an answer took item `t` out of the queue, the poller has it now; nothing else moved. */
  lemma AnswerMoves(s: Sys, s': Sys, t: TaskId, taken: bool)
    requires s' == s.(q := s'.q, w := s'.w, base := s'.base, hist := s'.hist)
    requires s.base.Popping? || s.base.ClearPop?
    requires if taken then s'.base == Got(t) || s'.base == ClearGot(t) else s'.base == s.base || s'.base == Out
    requires forall u :: OpClaims(s', u) <==> OpClaims(s, u)
    requires forall n: Q.Node :: n.Item? ==> (InChain(s'.q, n) <==> InChain(s.q, n) && (taken ==> n != Q.Item(t)))
    requires taken ==> InChain(s.q, Q.Item(t))
    ensures Moved(s, s', t, if taken then {Entry} else {}, if taken then {Poller} else {})
    ensures ClaimMoved(s, s', t, if taken then {Entry} else {}, if taken then {Poller} else {})
  {
    hide InChain, OpClaims;
  }

  lemma DispatchMoves(s: Sys, t: TaskId)
    requires s.base == Got(t) && t in s.tasks && (t in s.leaked ==> s.tasks[t].done.Done?)
    ensures var done := s.tasks[t].done;
            && Moved(s, DispatchEffect(s, t), t, if done.Running? then {} else {Poller}, if done.Cancelled? then {Leaked} else {})
            && ClaimMoved(s, DispatchEffect(s, t), t, {Poller}, {})
  {
    hide InChain;
  }

  lemma ClearDispatchMoves(s: Sys, t: TaskId)
    requires s.base == ClearGot(t) && t in s.tasks
    ensures Moved(s, ClearDispatchEffect(s, t), t, {Poller}, {})
    ensures ClaimMoved(s, ClearDispatchEffect(s, t), t, {Poller}, {})
  {
    hide InChain;
  }

  lemma ReadyMoves(s: Sys, t: TaskId)
    requires s.base == Driving(t) && t in s.tasks
    ensures Moved(s, EndDriveEffect(s, t, true), t, {}, {}) && ClaimMoved(s, EndDriveEffect(s, t, true), t, {}, {})
  {
    hide InChain;
  }

  lemma EndDriveMoves(s: Sys, t: TaskId, ready: bool)
    requires s.base == Driving(t) && t in s.tasks
    ensures Moved(s, EndDriveEffect(s, t, ready), t, {}, {}) && ClaimMoved(s, EndDriveEffect(s, t, ready), t, {}, {})
  {
    hide InChain;
    if ready {
      hide EndDriveEffect;
      ReadyMoves(s, t);
    }
  }

  lemma DetachMoves(s: Sys, t: TaskId)
    requires (s.base == ClearRemoving(t) || s.base == Removing(t, true) || s.base == Removing(t, false))
    requires t in s.tasks && t in s.all
    ensures Moved(s, DetachEffect(s, t), t, {AllList}, {}) && ClaimMoved(s, DetachEffect(s, t), t, {}, {})
  {
    hide InChain;
  }

  lemma EndTurnMoves(s: Sys, t: TaskId, returning: bool)
    requires s.base == Dropping(t, returning) && t in s.tasks
    ensures Moved(s, EndTurnEffect(s, t, returning), t, {Poller}, {})
    ensures ClaimMoved(s, EndTurnEffect(s, t, returning), t, {}, {})
  {
    hide InChain;
  }

  lemma ClearNextMoves(s: Sys, t: TaskId)
    requires s.base.ClearList? && (s.all != {} ==> t in s.tasks)
    ensures Moved(s, ClearNextEffect(s, t), t, {}, {}) && ClaimMoved(s, ClearNextEffect(s, t), t, {}, {})
  {
    hide InChain;
  }

  lemma ClearMoves(s: Sys, a: Action)
    requires Enabled(s, a) && (a.StartClear? || a.DropSchedular?)
    ensures Moved(s, Step(s, a), 0, {}, {}) && ClaimMoved(s, Step(s, a), 0, {}, {})
  {
    hide InChain;
  }
}
