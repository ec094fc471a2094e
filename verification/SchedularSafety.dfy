/**
 The invariant of the whole system is inductive: every step of every thread keeps it.
 */
module SchedularSafety {
  import opened Wrappers
  import opened Schedular
  import opened SchedularPlaces
  import opened SchedularInv
  import opened SchedularHolders
  import opened SchedularTasks
  import Q = Queue
  import W = AtomicWaker

  ghost predicate Ledger(s: Sys) {
    CountsOk(s) && ClaimsOk(s)
  }

  /** If holders, claims, counts and flag of one task moved together, the ledger is still right. */
  lemma LedgerKept(s: Sys, s': Sys, t: TaskId,
                   lost: set<Holder>, gained: set<Holder>, lostClaims: set<Holder>, gainedClaims: set<Holder>, d: int)
    requires Ledger(s) && Moved(s, s', t, lost, gained) && ClaimMoved(s, s', t, lostClaims, gainedClaims)
    requires d == |gained| - |lost| && RecordMoved(s, s', t, d) && (gained != {} ==> t in s'.tasks)
    requires |gainedClaims| <= 1 && FlagMoved(s, s', t, lostClaims, gainedClaims)
    ensures Ledger(s') && NoNewClaims(s, s')
  {
    CountsKept(s, s', t, lost, gained);
    ClaimsKept(s, s', t, lostClaims, gainedClaims, d);
  }

  /** A step that moves nothing and keeps the flag. */
  lemma LedgerSame(s: Sys, s': Sys, t: TaskId)
    requires Ledger(s) && Moved(s, s', t, {}, {}) && ClaimMoved(s, s', t, {}, {}) && s'.tasks == s.tasks
    ensures Ledger(s') && NoNewClaims(s, s')
  {
    CountsKept(s, s', t, {}, {});
    if t in s.tasks {
      FlagStays(s, s', t);
    }
    ClaimsKept(s, s', t, {}, {}, 0);
  }

  lemma FlagStays(s: Sys, s': Sys, t: TaskId)
    requires ClaimsOk(s) && t in s.tasks && t in s'.tasks
    requires s'.tasks[t].queued == s.tasks[t].queued && (s.tasks[t].done.Done? ==> s'.tasks[t].done.Done?)
    ensures FlagMoved(s, s', t, {}, {})
  {
    if !s.tasks[t].queued {
      NoClaim(s, t, {});
    }
  }

  lemma HolderKnown(s: Sys, t: TaskId, h: Holder)
    requires CountsOk(s) && IsHolder(s, t, h)
    ensures t in s.tasks
  {
  }

  // ----- operations

  lemma TryQueueLedger(s: Sys, u: Tid)
    requires Ledger(s) && OpEnabled(s, u) && s.ops[u].TryQueue?
    ensures Ledger(OpEffect(s, u)) && NoNewClaims(s, OpEffect(s, u))
  {
    var t := s.ops[u].task;
    var s' := TryQueueEffect(s, u, t, s.ops[u].kind);
    assert s' == OpEffect(s, u);
    TryQueueMoves(s, u);
    TryQueueRecord(s, u);
    var gained := if s.tasks[t].queued then {} else {Thread(u)};
    hide Moved, ClaimMoved, CountsOk, ClaimsOk, NoNewClaims, RecordMoved, FlagMoved, TryQueueEffect, OpEffect, OpEnabled;
    LedgerKept(s, s', t, {}, {}, {}, gained, 0);
  }

  lemma TryQueueRecord(s: Sys, u: Tid)
    requires ClaimsOk(s) && u in s.ops && s.ops[u].TryQueue? && s.ops[u].task in s.tasks
    ensures var t := s.ops[u].task; var s' := TryQueueEffect(s, u, t, s.ops[u].kind);
      && RecordMoved(s, s', t, 0) && t in s'.tasks
      && FlagMoved(s, s', t, {}, if s.tasks[t].queued then {} else {Thread(u)})
  {
    var t := s.ops[u].task;
    if s.tasks[t].queued {
      FlagStays(s, TryQueueEffect(s, u, t, s.ops[u].kind), t);
    } else {
      NoClaim(s, t, {});
    }
    hide AllLost, ClaimsOk, HasClaim;
  }

  /** Once the scheduler is gone every task is done. */
  lemma DeadMeansDone(s: Sys, t: TaskId)
    requires TaskOk(s) && t in s.tasks
    ensures !QueueHeld(s) ==> s.tasks[t].done.Done?
  {
    assert TaskAt(s, t);
  }

  lemma UpgradeLedger(s: Sys, u: Tid)
    requires Ledger(s) && TaskOk(s) && Sync(s) && OpEnabled(s, u) && s.ops[u].Upgrade?
    ensures Ledger(OpEffect(s, u)) && NoNewClaims(s, OpEffect(s, u))
  {
    var t := s.ops[u].task;
    var s' := UpgradeEffect(s, u, t, s.ops[u].kind);
    assert s' == OpEffect(s, u);
    assert SyncAt(s, u);
    assert Claims(s, t, Thread(u));
    ThreadIsFlagged(s, u);
    DeadMeansDone(s, t);
    UpgradeRecord(s, u);
    hide TaskOk, Sync, SyncAt;
    UpgradeMoves(s, u);
    var lost := if QueueHeld(s) then {} else {Thread(u)};
    hide Moved, ClaimMoved, CountsOk, ClaimsOk, NoNewClaims, RecordMoved, FlagMoved, UpgradeEffect, OpEffect, OpEnabled, QueueHeld;
    LedgerKept(s, s', t, {}, {}, lost, {}, 0);
  }

  lemma UpgradeRecord(s: Sys, u: Tid)
    requires ClaimsOk(s) && u in s.ops && s.ops[u].Upgrade?
    requires s.ops[u].task in s.tasks && (!QueueHeld(s) ==> s.tasks[s.ops[u].task].done.Done?)
    ensures var t := s.ops[u].task; var s' := UpgradeEffect(s, u, t, s.ops[u].kind);
      && RecordMoved(s, s', t, 0) && t in s.tasks && s'.tasks == s.tasks
      && FlagMoved(s, s', t, if QueueHeld(s) then {} else {Thread(u)}, {})
  {
    var t := s.ops[u].task;
    assert Claims(s, t, Thread(u));
    ThreadIsFlagged(s, u);
    hide QueueHeld;
    FlagStays(s, UpgradeEffect(s, u, t, s.ops[u].kind), t);
    hide AllLost, ClaimsOk, HasClaim, Claims;
  }

  lemma ReleaseLedger(s: Sys, u: Tid)
    requires Ledger(s) && OpEnabled(s, u) && s.ops[u].Release?
    ensures Ledger(OpEffect(s, u)) && NoNewClaims(s, OpEffect(s, u))
  {
    var t, s' := s.ops[u].task, OpEffect(s, u);
    ReleaseMoves(s, u);
    FlagStays(s, s', t);
    assert RecordMoved(s, s', t, -1);
    hide Moved, ClaimMoved, CountsOk, ClaimsOk, NoNewClaims, RecordMoved;
    LedgerKept(s, s', t, {Thread(u)}, {}, {}, {}, -1);
  }

  lemma WakeLedger(s: Sys, u: Tid)
    requires Ledger(s) && Sync(s) && OpEnabled(s, u) && (s.ops[u].Signal? || s.ops[u].Waking?)
    ensures Ledger(OpEffect(s, u)) && NoNewClaims(s, OpEffect(s, u))
  {
    assert SyncAt(s, u);
    if s.ops[u].Signal? { SignalMoves(s, u); } else { WakingMoves(s, u); }
    WakeRecords(s, u);
    hide Moved, ClaimMoved, CountsOk, ClaimsOk, NoNewClaims, OpEffect;
    LedgerSame(s, OpEffect(s, u), 0);
  }

  lemma WakeRecords(s: Sys, u: Tid)
    requires OpEnabled(s, u) && (s.ops[u].Signal? || s.ops[u].Waking?)
    ensures OpEffect(s, u).tasks == s.tasks
    ensures OpEffect(s, u) == if s.ops[u].Signal? then SignalEffect(s, u) else WakingEffect(s, u)
  {
    hide W.Step, W.Enabled, WakeAction;
  }

  lemma StoreLedger(s: Sys, u: Tid)
    requires Ledger(s) && Components(s) && OpEnabled(s, u) && s.ops[u].Store?
    ensures Ledger(OpEffect(s, u)) && NoNewClaims(s, OpEffect(s, u))
  {
    StoreMoves(s, u);
    hide Moved, ClaimMoved, CountsOk, ClaimsOk, NoNewClaims, Q.Step, Q.Enabled;
    LedgerSame(s, OpEffect(s, u), 0);
  }

  lemma PushLedger(s: Sys, u: Tid)
    requires Ledger(s) && Components(s) && Sync(s) && OpEnabled(s, u) && s.ops[u].Push?
    ensures Ledger(OpEffect(s, u)) && NoNewClaims(s, OpEffect(s, u))
  {
    var s' := PushEffect(s, u);
    assert SyncAt(s, u) && s' == OpEffect(s, u);
    if s.q.producers[u].Cleared? {
      SwapLedger(s, u);
    } else {
      LinkMoves(s, u);
      hide Moved, ClaimMoved, CountsOk, ClaimsOk, NoNewClaims, Q.Step, Q.Enabled, OpEffect, PushEffect, SyncAt, Sync;
      LedgerSame(s, s', 0);
    }
  }

  lemma SwapLedger(s: Sys, u: Tid)
    requires Ledger(s) && Components(s) && SyncAt(s, u) && OpEnabled(s, u) && s.ops[u].Push? && s.q.producers[u].Cleared?
    ensures Ledger(PushEffect(s, u)) && NoNewClaims(s, PushEffect(s, u))
  {
    var t, s' := s.ops[u].task, PushEffect(s, u);
    PushFields(s, u);
    SwapMoves(s, u);
    hide SyncAt, Components, PushEffect, Moved, ClaimMoved, CountsOk, NoNewClaims, Q.Step, Q.Enabled, PushAction;
    SwapRecord(s, s', u);
    hide ClaimsOk, RecordMoved, FlagMoved;
    LedgerKept(s, s', t, {Thread(u)}, {Entry}, {Thread(u)}, {Entry}, 0);
  }

  lemma SwapRecord(s: Sys, s': Sys, u: Tid)
    requires ClaimsOk(s) && u in s.ops && s.ops[u].Push? && u in s.q.producers && s.q.producers[u].Cleared?
    requires s'.tasks == s.tasks
    ensures var t := s.ops[u].task; t in s'.tasks && RecordMoved(s, s', t, 0) && FlagMoved(s, s', t, {Thread(u)}, {Entry})
  {
    ThreadIsFlagged(s, u);
    hide AllLost, ClaimsOk;
  }

  lemma OpLedger(s: Sys, u: Tid)
    requires Ledger(s) && Components(s) && Sync(s) && TaskOk(s) && OpEnabled(s, u)
    ensures Ledger(OpEffect(s, u)) && NoNewClaims(s, OpEffect(s, u))
  {
    hide Ledger, NoNewClaims, Components, Sync, TaskOk, OpEffect;
    match s.ops[u]
    case TryQueue(_, _) => TryQueueLedger(s, u);
    case Upgrade(_, _) => UpgradeLedger(s, u);
    case Release(_, _) => ReleaseLedger(s, u);
    case Signal(_, _) => WakeLedger(s, u);
    case Waking(_, _) => WakeLedger(s, u);
    case Store(_, _) => StoreLedger(s, u);
    case Push(_, _) => PushLedger(s, u);
  }

  // ----- handles and tokens

  lemma CloneLedger(s: Sys, t: TaskId, to: HandleId)
    requires Ledger(s) && t in s.tasks && to !in s.handles
    ensures Ledger(CloneEffect(s, t, to)) && NoNewClaims(s, CloneEffect(s, t, to))
  {
    var s' := CloneEffect(s, t, to);
    CloneMoves(s, t, to);
    FlagStays(s, s', t);
    assert RecordMoved(s, s', t, 1);
    hide Moved, ClaimMoved, CountsOk, ClaimsOk, NoNewClaims, RecordMoved;
    LedgerKept(s, s', t, {}, {Handle(to)}, {}, {}, 1);
  }

  lemma DropLedger(s: Sys, h: HandleId)
    requires Ledger(s) && h in s.handles && s.handles[h] in s.tasks
    ensures Ledger(DropEffect(s, h)) && NoNewClaims(s, DropEffect(s, h))
  {
    var s', t := DropEffect(s, h), s.handles[h];
    DropMoves(s, h);
    FlagStays(s, s', t);
    assert RecordMoved(s, s', t, -1);
    hide Moved, ClaimMoved, CountsOk, ClaimsOk, NoNewClaims, RecordMoved;
    LedgerKept(s, s', t, {Handle(h)}, {}, {}, {}, -1);
  }

  lemma StartWakeLedger(s: Sys, h: HandleId, u: Tid)
    requires Ledger(s) && h in s.handles && u !in s.ops
    ensures Ledger(StartWakeEffect(s, h, u)) && NoNewClaims(s, StartWakeEffect(s, h, u))
  {
    var s', t := StartWakeEffect(s, h, u), s.handles[h];
    HolderKnown(s, t, Handle(h));
    StartWakeMoves(s, h, u);
    FlagStays(s, s', t);
    assert RecordMoved(s, s', t, 0);
    hide Moved, ClaimMoved, CountsOk, ClaimsOk, NoNewClaims, RecordMoved;
    LedgerKept(s, s', t, {Handle(h)}, {Thread(u)}, {}, {}, 0);
  }

  lemma PushTaskLedger(s: Sys, t: TaskId)
    requires Ledger(s) && t !in s.tasks && CONSUMER !in s.ops
    ensures Ledger(PushTaskEffect(s, t)) && NoNewClaims(s, PushTaskEffect(s, t))
  {
    var s' := PushTaskEffect(s, t);
    PushTaskMoves(s, t);
    NoClaim(s, t, {});
    assert |{AllList, Token, Thread(CONSUMER)}| == 3;
    assert RecordMoved(s, s', t, 3);
    hide Moved, ClaimMoved, CountsOk, ClaimsOk, NoNewClaims, RecordMoved;
    LedgerKept(s, s', t, {}, {AllList, Token, Thread(CONSUMER)}, {}, {Thread(CONSUMER)}, 3);
  }

  lemma StartCancelLedger(s: Sys, t: TaskId)
    requires Ledger(s) && t in s.tasks && t in s.tokens && CONSUMER !in s.ops
    ensures Ledger(StartCancelEffect(s, t)) && NoNewClaims(s, StartCancelEffect(s, t))
  {
    var s' := StartCancelEffect(s, t);
    StartCancelMoves(s, t);
    StartCancelRecord(s, t);
    hide Moved, ClaimMoved, CountsOk, ClaimsOk, NoNewClaims, RecordMoved, FlagMoved, StartCancelEffect;
    LedgerKept(s, s', t, {Token}, {if s.tasks[t].done.Running? then Frame(|s.frames|) else Thread(CONSUMER)}, {}, {}, 0);
  }

  lemma StartCancelRecord(s: Sys, t: TaskId)
    requires ClaimsOk(s) && t in s.tasks
    ensures var s' := StartCancelEffect(s, t);
      RecordMoved(s, s', t, 0) && t in s'.tasks && FlagMoved(s, s', t, {}, {})
  {
    FlagStays(s, StartCancelEffect(s, t), t);
    hide AllLost, ClaimsOk, HasClaim;
  }

  lemma EndDropLedger(s: Sys)
    requires Ledger(s) && s.frames != [] && CONSUMER !in s.ops
    ensures Ledger(EndDropEffect(s)) && NoNewClaims(s, EndDropEffect(s))
  {
    var i := |s.frames| - 1;
    var s', t := EndDropEffect(s), s.frames[i];
    assert IsHolder(s, t, Frame(i));
    HolderKnown(s, t, Frame(i));
    EndDropMoves(s);
    FlagStays(s, s', t);
    assert RecordMoved(s, s', t, 0);
    hide Moved, ClaimMoved, CountsOk, ClaimsOk, NoNewClaims, RecordMoved;
    LedgerKept(s, s', t, {Frame(i)}, {Thread(CONSUMER)}, {}, {}, 0);
  }

  // ----- poll and clear

  lemma PopLedger(s: Sys, a: Q.Action)
    requires Ledger(s) && Components(s) && Enabled(s, PopStep(a))
    ensures Ledger(PopEffect(s, a)) && NoNewClaims(s, PopEffect(s, a))
  {
    var s' := PopEffect(s, a);
    var t, lost, gained := PopMoves(s, a);
    PopKeepsTasks(s, a);
    hide Moved, ClaimMoved, CountsOk, ClaimsOk, NoNewClaims, PopEffect, Q.Step, Q.Enabled, Taken, InChain, Components;
    if lost != {} {
      EntryRecord(s, s', t);
      hide RecordMoved, FlagMoved;
      LedgerKept(s, s', t, {Entry}, {Poller}, {Entry}, {Poller}, 0);
    } else {
      LedgerSame(s, s', t);
    }
  }

  lemma EntryRecord(s: Sys, s': Sys, t: TaskId)
    requires ClaimsOk(s) && InChain(s.q, Q.Item(t)) && s'.tasks == s.tasks
    ensures t in s'.tasks && RecordMoved(s, s', t, 0) && FlagMoved(s, s', t, {Entry}, {Poller})
  {
    assert Claims(s, t, Entry);
    EntryIsFlagged(s, t);
    hide AllLost, ClaimsOk, Claims;
  }

  /** `MarkDone` keeps the claims, which a done task may have. */
  lemma DispatchLedger(s: Sys, t: TaskId)
    requires Ledger(s) && TaskOk(s) && s.base == Got(t) && t in s.tasks
    ensures Ledger(DispatchEffect(s, t)) && NoNewClaims(s, DispatchEffect(s, t)) && s.tasks[t].queued
  {
    var s', done := DispatchEffect(s, t), s.tasks[t].done;
    DispatchRecord(s, t);
    DispatchMoves(s, t);
    hide Moved, ClaimMoved, CountsOk, ClaimsOk, NoNewClaims, RecordMoved, FlagMoved, DispatchEffect;
    if done.Done? {
      LedgerKept(s, s', t, {Poller}, {}, {Poller}, {}, -1);
    } else if done.Cancelled? {
      LedgerKept(s, s', t, {Poller}, {Leaked}, {Poller}, {}, 0);
    } else {
      LedgerKept(s, s', t, {}, {}, {Poller}, {}, 0);
    }
  }

  /** The count and the flag of the task taken from the queue. */
  lemma DispatchRecord(s: Sys, t: TaskId)
    requires ClaimsOk(s) && s.base == Got(t) && t in s.tasks
    ensures RecordMoved(s, DispatchEffect(s, t), t, if s.tasks[t].done.Done? then -1 else 0)
    ensures FlagMoved(s, DispatchEffect(s, t), t, {Poller}, {}) && s.tasks[t].queued
  {
    assert Claims(s, t, Poller);
    OnlyClaim(s, t, Poller);
    hide AllLost, Claims;
  }

  lemma ClearDispatchLedger(s: Sys, t: TaskId)
    requires Ledger(s) && TaskOk(s) && s.base == ClearGot(t) && t in s.tasks
    ensures Ledger(ClearDispatchEffect(s, t)) && NoNewClaims(s, ClearDispatchEffect(s, t))
  {
    var s' := ClearDispatchEffect(s, t);
    assert Claims(s, t, Poller);
    OnlyClaim(s, t, Poller);
    assert TaskAt(s, t) && s.tasks[t].done.Done?;
    ClearDispatchMoves(s, t);
    assert RecordMoved(s, s', t, -1);
    hide Moved, ClaimMoved, CountsOk, ClaimsOk, NoNewClaims, RecordMoved;
    LedgerKept(s, s', t, {Poller}, {}, {Poller}, {}, -1);
  }

  lemma EndDriveLedger(s: Sys, t: TaskId, ready: bool)
    requires Ledger(s) && s.base == Driving(t) && t in s.tasks
    ensures Ledger(EndDriveEffect(s, t, ready)) && NoNewClaims(s, EndDriveEffect(s, t, ready))
  {
    var s' := EndDriveEffect(s, t, ready);
    EndDriveMoves(s, t, ready);
    EndDriveRecord(s, t, ready);
    hide Moved, ClaimMoved, CountsOk, ClaimsOk, NoNewClaims, RecordMoved, FlagMoved, EndDriveEffect;
    LedgerKept(s, s', t, {}, {}, {}, {}, 0);
  }

  lemma ThreadIsFlagged(s: Sys, u: Tid)
    requires ClaimsOk(s) && u in s.ops && Claims(s, s.ops[u].task, Thread(u))
    ensures var t := s.ops[u].task; AllLost(s, t, {Thread(u)}) && t in s.tasks && s.tasks[t].queued
  {
    OnlyClaim(s, s.ops[u].task, Thread(u));
  }

  lemma PopKeepsTasks(s: Sys, a: Q.Action)
    requires Enabled(s, PopStep(a))
    ensures PopEffect(s, a).tasks == s.tasks
  {
    PopShape(s, a);
    hide PopEffect, Q.Step, Q.Enabled;
  }

  lemma EntryIsFlagged(s: Sys, t: TaskId)
    requires ClaimsOk(s) && Claims(s, t, Entry)
    ensures AllLost(s, t, {Entry}) && t in s.tasks && s.tasks[t].queued
  {
    OnlyClaim(s, t, Entry);
  }

  lemma EndDriveRecord(s: Sys, t: TaskId, ready: bool)
    requires ClaimsOk(s) && s.base == Driving(t) && t in s.tasks
    ensures RecordMoved(s, EndDriveEffect(s, t, ready), t, 0)
    ensures FlagMoved(s, EndDriveEffect(s, t, ready), t, {}, {})
  {
    hide AllLost, HasClaim, ClaimsOk;
    if !ready { FlagStays(s, EndDriveEffect(s, t, ready), t); }
  }

  lemma DetachLedger(s: Sys, t: TaskId)
    requires Ledger(s) && TaskOk(s) && RemovingTask(s.base) == Some(t) && t in s.tasks && t in s.all
    ensures Ledger(DetachEffect(s, t)) && NoNewClaims(s, DetachEffect(s, t))
  {
    var s' := DetachEffect(s, t);
    DetachMoves(s, t);
    FlagStays(s, s', t);
    assert RecordMoved(s, s', t, -1);
    hide Moved, ClaimMoved, CountsOk, ClaimsOk, NoNewClaims, RecordMoved;
    LedgerKept(s, s', t, {AllList}, {}, {}, {}, -1);
  }

  lemma EndTurnLedger(s: Sys, t: TaskId, returning: bool)
    requires Ledger(s) && s.base == Dropping(t, returning) && t in s.tasks
    ensures Ledger(EndTurnEffect(s, t, returning)) && NoNewClaims(s, EndTurnEffect(s, t, returning))
  {
    var s' := EndTurnEffect(s, t, returning);
    EndTurnMoves(s, t, returning);
    FlagStays(s, s', t);
    assert RecordMoved(s, s', t, -1);
    hide Moved, ClaimMoved, CountsOk, ClaimsOk, NoNewClaims, RecordMoved;
    LedgerKept(s, s', t, {Poller}, {}, {}, {}, -1);
  }

  lemma RegisterLedger(s: Sys, a: Action)
    requires Ledger(s) && Enabled(s, a) && (a.StartPoll? || a.RegisterStep?)
    ensures Ledger(Step(s, a)) && NoNewClaims(s, Step(s, a))
  {
    if a.StartPoll? { StartPollMoves(s, a.waker); } else { RegisterMoves(s, a.wa); }
    hide Moved, ClaimMoved, CountsOk, ClaimsOk, NoNewClaims, W.Step;
    LedgerSame(s, Step(s, a), 0);
  }

  lemma ClearNextLedger(s: Sys, t: TaskId)
    requires Ledger(s) && Enabled(s, ClearNext(t))
    ensures Ledger(ClearNextEffect(s, t)) && NoNewClaims(s, ClearNextEffect(s, t))
  {
    var s' := ClearNextEffect(s, t);
    ClearNextMoves(s, t);
    if s.all == {} {
      hide Moved, ClaimMoved, CountsOk, ClaimsOk, NoNewClaims;
      LedgerSame(s, s', t);
    } else {
      assert RecordMoved(s, s', t, 0);
      hide Moved, ClaimMoved, CountsOk, ClaimsOk, NoNewClaims, RecordMoved;
      LedgerKept(s, s', t, {}, {}, {}, {}, 0);
    }
  }

  lemma EndLedger(s: Sys, a: Action)
    requires Ledger(s) && Enabled(s, a) && (a.StartClear? || a.DropSchedular?)
    ensures Ledger(Step(s, a)) && NoNewClaims(s, Step(s, a))
  {
    ClearMoves(s, a);
    hide Moved, ClaimMoved, CountsOk, ClaimsOk, NoNewClaims;
    LedgerSame(s, Step(s, a), 0);
  }

  // ----- the invariant

  ghost predicate Inv(s: Sys) {
    Components(s) && Sync(s) && TaskOk(s) && Ledger(s)
  }

  lemma InitInv()
    ensures Inv(Init())
  {
    Q.InitInv();
    W.InitInv();
  }

  lemma OpTasks(s: Sys, u: Tid)
    requires TaskOk(s) && Sync(s) && OpEnabled(s, u)
    ensures TaskOk(OpEffect(s, u))
  {
    hide TaskOk, Sync, OpEffect;
    if s.ops[u].Signal? || s.ops[u].Waking? {
      WakeOpTasks(s, u);
    } else if s.ops[u].Store? || s.ops[u].Push? {
      PushOpTasks(s, u);
    } else {
      PlainOpTasks(s, u);
    }
  }

  lemma StartStep(s: Sys, a: Action)
    requires Inv(s) && Enabled(s, a)
    requires a.CloneWaker? || a.DropWaker? || a.StartWake? || a.PushTask? || a.StartCancel? || a.EndDrop?
    ensures TaskOk(Step(s, a)) && Ledger(Step(s, a)) && NoNewClaims(s, Step(s, a))
  {
    hide TaskOk, Sync, Components, Ledger, NoNewClaims, OpEffect, PopEffect;
    match a
    case CloneWaker(from, to) =>
      CloneLedger(s, if from.Some? then s.handles[from.value] else s.base.task, to);
      HandleTasks(s, a);
    case DropWaker(h) => DropLedger(s, h); HandleTasks(s, a);
    case StartWake(h, u) => StartWakeLedger(s, h, u); HandleTasks(s, a);
    case PushTask(t) => PushTaskLedger(s, t); PushTaskTasks(s, t);
    case StartCancel(t) => StartCancelLedger(s, t); StartCancelTasks(s, t);
    case EndDrop => EndDropLedger(s); EndDropTasks(s);
  }

  lemma PollStep(s: Sys, a: Action)
    requires Inv(s) && Enabled(s, a)
    requires a.Dispatch? || a.EndDrive? || a.Detach? || a.EndTurn?
    ensures TaskOk(Step(s, a)) && Ledger(Step(s, a)) && NoNewClaims(s, Step(s, a))
  {
    hide TaskOk, Sync, Components, Ledger, NoNewClaims, OpEffect, PopEffect;
    var t := s.base.task;
    match a
    case Dispatch =>
      if s.base.Got? {
        DispatchLedger(s, t);
        DispatchTasks(s, t);
      } else {
        ClearDispatchLedger(s, t);
        ClearDispatchTasks(s, t);
      }
    case EndDrive(ready) => EndDriveLedger(s, t, ready); EndDriveTasks(s, t, ready);
    case Detach => DetachTasks(s, t); DetachLedger(s, t);
    case EndTurn => EndTurnLedger(s, t, s.base.returning); EndTurnTasks(s, t, s.base.returning);
  }

  /** The invariant is inductive: every step of every thread keeps it. */
  lemma StepInv(s: Sys, a: Action)
    requires Inv(s) && Enabled(s, a)
    ensures Inv(Step(s, a)) && NoNewClaims(s, Step(s, a))
  {
    hide TaskOk, Sync, Components, Ledger, NoNewClaims, OpEffect, PopEffect;
    ComponentsStep(s, a);
    SyncStep(s, a);
    match a
    case OpStep(u) => OpLedger(s, u); OpTasks(s, u);
    case PopStep(qa) => PopLedger(s, qa); PopTasks(s, qa);
    case StartPoll(_) => RegisterLedger(s, a); RegisterTasks(s, a);
    case RegisterStep(_) => RegisterLedger(s, a); RegisterTasks(s, a);
    case StartClear => EndLedger(s, a); ClearTasks(s, a);
    case DropSchedular => EndLedger(s, a); ClearTasks(s, a);
    case ClearNext(t) => ClearNextLedger(s, t); ClearTasks(s, a);
    case Dispatch => PollStep(s, a);
    case EndDrive(_) => PollStep(s, a);
    case Detach => PollStep(s, a);
    case EndTurn => PollStep(s, a);
    case _ => StartStep(s, a);
  }
}
