/**
 Deferred delivery is exact and exactly once. The journal is read per task as a
 ledger: a message is staged only when none is open, and each open message is
 closed once, by delivery or by a drop, with the very payload that was staged.
 */
module DispatchDelivery {
  import opened Base
  import opened Dispatch
  import opened DispatchInvariant

  datatype Slip = Closed | Open(msg: PendingMsg) | Broken

  function LedgerStep(s: Slip, n: Note, t: Tid): Slip {
    match n
    case Staged(u, m) => if u != t then s else if s == Closed then Open(m) else Broken
    case Delivered(u, m) => if u != t then s else if s == Open(m) then Closed else Broken
    case Dropped(u, m) => if u != t then s else if s == Open(m) then Closed else Broken
    case Copied(_, _, _) => s
    case IrqGiven(_, _) => s
  }

  function Ledger(journal: seq<Note>, t: Tid): Slip
    decreases |journal|
  {
    if journal == [] then Closed
    else LedgerStep(Ledger(journal[..|journal| - 1], t), journal[|journal| - 1], t)
  }

  function DeliveredIn(journal: seq<Note>): nat
    decreases |journal|
  {
    if journal == [] then 0
    else DeliveredIn(journal[..|journal| - 1]) + (if journal[|journal| - 1].Delivered? then 1 else 0)
  }

  lemma LedgerAppend(journal: seq<Note>, n: Note, t: Tid)
    ensures Ledger(journal + [n], t) == LedgerStep(Ledger(journal, t), n, t)
    ensures DeliveredIn(journal + [n]) == DeliveredIn(journal) + (if n.Delivered? then 1 else 0)
  {
    assert (journal + [n])[..|journal|] == journal;
  }

  function SlipOf(pending: Option<PendingMsg>): Slip {
    if pending.None? then Closed else Open(pending.value)
  }

  /** Each task's ledger is open on exactly what is staged for it, and the counter counts deliveries. */
  ghost predicate Balanced(k: Kernel) {
    && (forall t: Tid :: Ledger(k.journal, t) == SlipOf(k.tasks[t].pending))
    && k.delivered == DeliveredIn(k.journal)
  }

  lemma SameLedger(k: Kernel, k': Kernel)
    requires Balanced(k) && k'.journal == k.journal && k'.delivered == k.delivered
    requires forall t: Tid :: k'.tasks[t].pending == k.tasks[t].pending
    ensures Balanced(k')
  {
  }

  /** Recording a note whose effect on every ledger is the change of what is staged. */
  lemma NoteBalanced(k: Kernel, k': Kernel, n: Note)
    requires Balanced(k) && k'.journal == k.journal + [n]
    requires k'.delivered == k.delivered + (if n.Delivered? then 1 else 0)
    requires forall t: Tid :: SlipOf(k'.tasks[t].pending) == LedgerStep(SlipOf(k.tasks[t].pending), n, t)
    ensures Balanced(k')
  {
    hide LedgerStep, Ledger, DeliveredIn;
    LedgerAppend(k.journal, n, 0);
    forall t: Tid
      ensures Ledger(k'.journal, t) == SlipOf(k'.tasks[t].pending)
    {
      LedgerAppend(k.journal, n, t);
    }
  }

  lemma StageBalanced(k: Kernel, t: Tid, msg: PendingMsg)
    requires Balanced(k) && k.tasks[t].pending.None?
    ensures Balanced(Stage(k, t, msg))
  {
    NoteBalanced(k, Stage(k, t, msg), Staged(t, msg));
  }

  lemma DiscardBalanced(k: Kernel, t: Tid)
    requires Balanced(k)
    ensures Balanced(Discard(k, t))
    ensures Discard(k, t).tasks[t].pending == None
  {
    if k.tasks[t].pending.Some? {
      NoteBalanced(k, Discard(k, t), Dropped(t, k.tasks[t].pending.value));
    }
  }

  lemma ResumeBalanced(k: Kernel, next: Tid)
    requires Balanced(k)
    ensures Balanced(Resume(k, next))
  {
    match k.tasks[next].pending
    case None => SameLedger(k, Resume(k, next));
    case Some(msg) => NoteBalanced(k, Resume(k, next), Delivered(next, msg));
  }

  lemma RescheduleBalanced(k: Kernel)
    requires Balanced(k)
    ensures Balanced(Reschedule(k))
  {
    hide Resume, SelectHighest;
    match SelectHighest(k.tasks, k.current)
    case Some(next) => ResumeBalanced(k, next);
    case None => SameLedger(k, Reschedule(k));
  }

  lemma StopBalanced(k: Kernel, s: RtState)
    requires Balanced(k)
    ensures Balanced(Reschedule(SaveCurrent(k, s)))
    ensures Balanced(Reschedule(SetState(k, k.current, s)))
  {
    hide Reschedule;
    SameLedger(k, SaveCurrent(k, s));
    RescheduleBalanced(SaveCurrent(k, s));
    SameLedger(k, SetState(k, k.current, s));
    RescheduleBalanced(SetState(k, k.current, s));
  }

  lemma PreemptBalanced(k: Kernel)
    requires Balanced(k)
    ensures Balanced(Preempt(k))
  {
    hide Resume, SelectHighest;
    SameLedger(k, SaveCurrent(k, Ready));
    match SelectHighest(k.tasks, k.current)
    case Some(next) => ResumeBalanced(SaveCurrent(k, Ready), next);
    case None =>
  }

  lemma NotifyBalanced(k: Kernel, e: EpId, code: byte)
    requires Core(k) && Balanced(k)
    ensures Balanced(NotifyEndpoint(k, e, code))
  {
    assert EpOk(k, e);
    match k.eps[e]
    case ReceiverWaiting(tid, dst, cap) =>
      assert TaskOk(k, tid);
      if cap >= 1 && ValidUserBuf(dst, 1) {
        var msg := PendingMsg(dst, [code]);
        StageBalanced(k, tid, msg);
        SameLedger(Stage(k, tid, msg), NotifyEndpoint(k, e, code));
      } else {
        SameLedger(k, NotifyEndpoint(k, e, code));
      }
    case _ =>
  }

  lemma ContainFaultBalanced(k: Kernel)
    requires Inv(k) && k.status == Live && Balanced(k)
    ensures Balanced(ContainFault(k))
  {
    hide Reschedule, NotifyEndpoint, Balanced;
    FaultKeeps(k);
    var k1 := DropIrqs(SetState(k, k.current, Faulted), k.current);
    SameLedger(k, k1);
    NotifyKeeps(k1, EP_FAULT, FAULT_CODE_WATCHDOG);
    NotifyBalanced(k1, EP_FAULT, FAULT_CODE_WATCHDOG);
    var k2 := NotifyEndpoint(k1, EP_FAULT, FAULT_CODE_WATCHDOG);
    NotifyBalanced(k2, EP_EVENT, FAULT_CODE_WATCHDOG);
    RescheduleBalanced(NotifyEndpoint(k2, EP_EVENT, FAULT_CODE_WATCHDOG));
  }

  lemma SendBalanced(k: Kernel, mem: nat -> byte)
    requires Inv(k) && k.status == Live && Balanced(k)
    ensures Balanced(IpcSend(k, mem))
  {
    hide Reschedule, Balanced, Overlay, InReadableWindow;
    CurrentCaps(k);
    var k' := IpcSend(k, mem);
    var check := EndpointCap(Cur(k), k.frame.a0, RIGHT_SEND);
    if check.Granted? && k.frame.a2 <= IPC_MSG_MAX && InReadableWindow(k.cfg, k.frame.a1, k.frame.a2) {
      GrantedExists(Cur(k), k.frame.a0, RIGHT_SEND);
      SendOnBalanced(k, check.id, mem);
    } else {
      SameLedger(k, k');
    }
  }

  lemma SendOnBalanced(k: Kernel, e: EpId, mem: nat -> byte)
    requires Inv(k) && k.status == Live && Balanced(k) && k.frame.a2 <= IPC_MSG_MAX
    ensures Balanced(SendOn(k, e, mem))
  {
    hide Reschedule, Balanced, Overlay;
    var k1 := k.(kmsg := Overlay(k.kmsg, UserBytes(mem, k.frame.a1, k.frame.a2)));
    SameLedger(k, k1);
    assert EpOk(k, e);
    match k.eps[e]
    case ReceiverWaiting(tid, dst, cap) =>
      assert TaskOk(k, tid);
      if k.frame.a2 <= cap && ValidUserBuf(dst, k.frame.a2) {
        StageBalanced(k1, tid, PendingMsg(dst, k1.kmsg[..k.frame.a2]));
        SameLedger(Stage(k1, tid, PendingMsg(dst, k1.kmsg[..k.frame.a2])), SendOn(k, e, mem));
      } else {
        SameLedger(k1, SendOn(k, e, mem));
      }
    case Idle =>
      var k2 := SetEp(k1, e, SenderWaiting(k.current, k.frame.a2));
      SameLedger(k1, k2);
      StopBalanced(k2, Blocked);
    case SenderWaiting(_, _) => SameLedger(k1, SendOn(k, e, mem));
  }

  lemma RecvBalanced(k: Kernel)
    requires Inv(k) && k.status == Live && Balanced(k)
    ensures Balanced(IpcRecv(k))
  {
    hide Reschedule, Balanced, LedgerStep;
    CurrentCaps(k);
    var k' := IpcRecv(k);
    var check := EndpointCap(Cur(k), k.frame.a0, RIGHT_RECV);
    if check.Granted? {
      GrantedExists(Cur(k), k.frame.a0, RIGHT_RECV);
      var irq := IrqPendingFor(k.routes, check.id, k.current);
      if irq.Some? {
        RecvIrqBalanced(k, irq.value);
      } else {
        RecvOnBalanced(k, check.id);
      }
    } else {
      SameLedger(k, k');
    }
  }

  lemma RecvIrqBalanced(k: Kernel, dev: DevId)
    requires Balanced(k)
    ensures Balanced(RecvIrq(k, dev))
  {
    if k.frame.a2 < 1 || !ValidUserBuf(k.frame.a1, 1) {
      SameLedger(k, RecvIrq(k, dev));
    } else {
      NoteBalanced(k, RecvIrq(k, dev), IrqGiven(dev, k.current));
    }
  }

  lemma RecvOnBalanced(k: Kernel, e: EpId)
    requires Inv(k) && k.status == Live && Balanced(k)
    ensures Balanced(RecvOn(k, e))
  {
    hide Reschedule, Balanced;
    var dst, cap := k.frame.a1, k.frame.a2;
    assert EpOk(k, e);
    match k.eps[e]
    case SenderWaiting(tid, len) =>
      if len > cap || !ValidUserBuf(dst, len) {
        SameLedger(k, RecvOn(k, e));
      } else {
        NoteBalanced(k, RecvOn(k, e), Copied(k.current, tid, PendingMsg(dst, k.kmsg[..len])));
      }
    case Idle =>
      if cap > IPC_MSG_MAX || !ValidUserBuf(dst, cap) {
        SameLedger(k, RecvOn(k, e));
      } else {
        var k1 := SetEp(k, e, ReceiverWaiting(k.current, dst, cap));
        SameLedger(k, k1);
        StopBalanced(k1, Blocked);
      }
    case ReceiverWaiting(_, _, _) => SameLedger(k, RecvOn(k, e));
  }

  lemma IrqRaiseBalanced(k: Kernel, dev: DevId)
    requires Inv(k) && Balanced(k)
    ensures Balanced(IrqRaise(k, dev))
  {
    hide Balanced;
    var k' := IrqRaise(k, dev);
    assert EpOk(k, IrqEndpoint(dev));
    match k.eps[IrqEndpoint(dev)]
    case ReceiverWaiting(tid, dst, cap) =>
      assert TaskOk(k, tid);
      if !Dead(k.tasks, k.routes[dev].receiver) && tid == k.routes[dev].receiver && cap >= 1 && ValidUserBuf(dst, 1) {
        var k1 := Stage(k, tid, PendingMsg(dst, [IRQ_EVENT_CODE]));
        StageBalanced(k, tid, PendingMsg(dst, [IRQ_EVENT_CODE]));
        NoteBalanced(k1, Record(k1, IrqGiven(dev, tid)), IrqGiven(dev, tid));
        SameLedger(Record(k1, IrqGiven(dev, tid)), k');
      } else {
        SameLedger(k, k');
      }
    case _ => SameLedger(k, k');
  }

  lemma TaskControlBalanced(k: Kernel)
    requires Inv(k) && k.status == Live && Balanced(k)
    ensures Balanced(SysTaskStart(k)) && Balanced(SysTaskKill(k))
    ensures Balanced(SysTaskRestart(k)) && Balanced(SysShutdown(k))
  {
    StartBalanced(k);
    KillBalanced(k);
    RestartBalanced(k);
    SameLedger(k, SysShutdown(k));
  }

  lemma RearmBalanced(k: Kernel, t: Tid, v: int)
    requires Balanced(k)
    ensures Balanced(Return(Rearm(k, t), v))
  {
    hide Balanced, ClearedEps;
    DiscardBalanced(k, t);
    SameLedger(Discard(k, t), Return(Rearm(k, t), v));
  }

  lemma StartBalanced(k: Kernel)
    requires Inv(k) && k.status == Live && Balanced(k)
    ensures Balanced(SysTaskStart(k))
  {
    hide Balanced, GrantedRoutes, Rearm, HoldsCap;
    var k' := SysTaskStart(k);
    if Controls(Cur(k)) && k.frame.a0 < |k.cfg.services| {
      var def := k.cfg.services[k.frame.a0];
      assert TaskOk(k, def.slot);
      if k.tasks[def.slot].state in {Killed, Faulted} {
        RearmBalanced(k, def.slot, def.slot);
      } else {
        SameLedger(k, k');
      }
    } else {
      SameLedger(k, k');
    }
  }

  lemma RestartBalanced(k: Kernel)
    requires Balanced(k)
    ensures Balanced(SysTaskRestart(k))
  {
    hide Balanced, Rearm, HoldsCap;
    var slot := k.frame.a0;
    if Controls(Cur(k)) && slot < MAX_TASKS && slot != k.current
       && k.tasks[slot].state != Empty && k.tasks[slot].entryVa != 0 {
      RearmBalanced(k, slot, 0);
    } else {
      SameLedger(k, SysTaskRestart(k));
    }
  }

  lemma KillBalanced(k: Kernel)
    requires Balanced(k)
    ensures Balanced(SysTaskKill(k))
  {
    hide Balanced, ClearedEps, DroppedRoutes, Reschedule, HoldsCap;
    var slot := k.frame.a0;
    if Controls(Cur(k)) && slot < MAX_TASKS && k.tasks[slot].state != Empty {
      DiscardBalanced(k, slot);
      SameLedger(Discard(k, slot), Kill(k, slot));
      RescheduleBalanced(Kill(k, slot));
      SameLedger(Kill(k, slot), Return(Kill(k, slot), 0));
    } else {
      SameLedger(k, SysTaskKill(k));
    }
  }

  lemma StepBalanced(k: Kernel, ev: Event)
    requires Inv(k) && Balanced(k)
    ensures Balanced(Step(k, ev))
  {
    hide Balanced, IpcSend, IpcRecv, SysTaskStart, SysTaskKill, SysTaskRestart, IrqRaise, Preempt, ContainFault,
      Reschedule, DeviceCap;
    if k.status.Live? {
      var k1 := k.(frame := ev.frame);
      CoreFrame(k, k1);
      SameLedger(k, k1);
      match ev
      case Syscall(num, _, mem, result) =>
        var k2 := k1.(miss := 0);
        CoreFrame(k, k2);
        SameLedger(k, k2);
        if num == SYS_YIELD {
          StopBalanced(k2, Ready);
        } else if num == SYS_EXIT {
          StopBalanced(k2, Killed);
        } else if num == SYS_SEND {
          SendBalanced(k2, mem);
        } else if num == SYS_RECV {
          RecvBalanced(k2);
        } else if num in {SYS_TASK_START, SYS_TASK_KILL, SYS_TASK_RESTART, SYS_SHUTDOWN} {
          TaskControlBalanced(k2);
        } else if num == SYS_IRQ_RAISE {
          var check := DeviceCap(Cur(k2), k2.frame.a0, DEV_RIGHT_DRIVER_CONTROL);
          DeviceCapBound(Cur(k2), k2.frame.a0, DEV_RIGHT_DRIVER_CONTROL);
          if check.Granted? {
            IrqRaiseBalanced(k2, check.id);
          } else {
            SameLedger(k2, Return(k2, DenyCode(check)));
          }
        } else {
          SameLedger(k2, Return(k2, result));
        }
      case TimerTick(_) =>
        var k2 := k1.(ticks := k1.ticks + 1, miss := k1.miss + 1);
        CoreFrame(k, k2);
        SameLedger(k, k2);
        PreemptBalanced(k2);
        ContainFaultBalanced(k2);
      case UserFault(_) => ContainFaultBalanced(k1);
    }
  }

  lemma DeviceCapBound(t: Tcb, index: nat, required: bv16)
    ensures DeviceCap(t, index, required).Granted? ==> DeviceCap(t, index, required).id < NUM_DEVICES
  {
  }

  lemma {:induction false} RunBalanced(k: Kernel, evs: seq<Event>)
    requires Inv(k) && Balanced(k)
    ensures Balanced(Run(k, evs))
    decreases |evs|
  {
    hide Step, Balanced, Inv;
    if evs != [] {
      StepBalanced(k, evs[0]);
      StepKeeps(k, evs[0]);
      RunBalanced(Step(k, evs[0]), evs[1..]);
    }
  }

  // ---- What a balanced ledger says ------------------------------------------

  predicate About(n: Note, t: Tid) { (n.Staged? || n.Delivered? || n.Dropped?) && n.tid == t }

  lemma {:induction false} PrefixUnbroken(journal: seq<Note>, i: nat, t: Tid)
    requires i <= |journal| && Ledger(journal, t) != Broken
    ensures Ledger(journal[..i], t) != Broken
    decreases |journal| - i
  {
    if i == |journal| {
      assert journal[..i] == journal;
    } else {
      PrefixUnbroken(journal, i + 1, t);
      assert journal[..i + 1][..i] == journal[..i];
    }
  }

  /** An open ledger names the last note about the task: the staging of the open message. */
  lemma {:induction false} OpenSince(journal: seq<Note>, t: Tid, m: PendingMsg) returns (h: nat)
    requires Ledger(journal, t) == Open(m)
    ensures h < |journal| && journal[h] == Staged(t, m)
    ensures forall x | h < x < |journal| :: !About(journal[x], t)
    decreases |journal|
  {
    var last := |journal| - 1;
    if About(journal[last], t) {
      h := last;
    } else {
      h := OpenSince(journal[..last], t, m);
      assert forall x | h < x < last :: journal[..last][x] == journal[x];
    }
  }

  function StagedFor(journal: seq<Note>, t: Tid): nat
    decreases |journal|
  {
    if journal == [] then 0
    else StagedFor(journal[..|journal| - 1], t)
         + (if journal[|journal| - 1].Staged? && journal[|journal| - 1].tid == t then 1 else 0)
  }

  function ClosedFor(journal: seq<Note>, t: Tid): nat
    decreases |journal|
  {
    if journal == [] then 0
    else ClosedFor(journal[..|journal| - 1], t)
         + (if (journal[|journal| - 1].Delivered? || journal[|journal| - 1].Dropped?) && journal[|journal| - 1].tid == t
            then 1 else 0)
  }

  lemma {:induction false} LedgerCounts(journal: seq<Note>, t: Tid)
    requires Ledger(journal, t) != Broken
    ensures StagedFor(journal, t) == ClosedFor(journal, t) + (if Ledger(journal, t).Open? then 1 else 0)
    decreases |journal|
  {
    if journal != [] {
      PrefixUnbroken(journal, |journal| - 1, t);
      LedgerCounts(journal[..|journal| - 1], t);
    }
  }

  lemma BootedBalanced(k: Kernel)
    requires Booted(k)
    ensures Balanced(k)
  {
  }

  /**
   Exactly once, for every run from boot and every task: messages staged equal
   messages delivered or dropped plus the one still pending, if any; and the
   kernel's own counter is the number of deliveries.
   */
  lemma Conservation(k: Kernel, evs: seq<Event>, t: Tid)
    requires Booted(k)
    ensures var r := Run(k, evs);
            && StagedFor(r.journal, t) == ClosedFor(r.journal, t) + (if r.tasks[t].pending.Some? then 1 else 0)
            && r.delivered == DeliveredIn(r.journal)
  {
    hide Run, Inv;
    BootedInv(k);
    BootedBalanced(k);
    RunBalanced(k, evs);
    LedgerCounts(Run(k, evs).journal, t);
  }

  /**
   Exact delivery, for every run from boot: whatever is copied to a task at resume
   is, destination and bytes, the last message staged for it, with nothing staged,
   delivered or dropped for it in between. A staged payload is never overwritten.
   */
  lemma DeliveryIsExact(k: Kernel, evs: seq<Event>, i: nat) returns (h: nat)
    requires Booted(k) && i < |Run(k, evs).journal| && Run(k, evs).journal[i].Delivered?
    ensures var j := Run(k, evs).journal;
            && h < i && j[h] == Staged(j[i].tid, j[i].msg)
            && (forall x | h < x < i :: !About(j[x], j[i].tid))
  {
    hide Run, Inv;
    BootedInv(k);
    BootedBalanced(k);
    RunBalanced(k, evs);
    var j := Run(k, evs).journal;
    var t := j[i].tid;
    PrefixUnbroken(j, i + 1, t);
    assert j[..i + 1][..i] == j[..i];
    h := OpenSince(j[..i], t, j[i].msg);
    assert forall x | h < x < i :: j[..i][x] == j[x];
  }
}
