/** Why each journal entry was written, and which device events and registers a step can touch. */
module DispatchProvenance {
  import opened Base
  import opened Dispatch
  import opened DispatchInvariant
  import opened DispatchAuthority
  import opened DispatchContext
  import opened DispatchDelivery
  import opened DispatchSchedule

  /** The send `ev` makes in `k` has passed its checks and takes its bytes to endpoint `e`. */
  predicate SendsOn(k: Kernel, ev: Event, e: nat) {
    && ev.Syscall? && ev.num == SYS_SEND
    && EndpointCap(Cur(k), ev.frame.a0, RIGHT_SEND) == Granted(e)
    && ev.frame.a2 <= IPC_MSG_MAX && InReadableWindow(k.cfg, ev.frame.a1, ev.frame.a2)
  }

  function SentBytes(ev: Event): seq<byte>
    requires ev.Syscall?
  {
    UserBytes(ev.mem, ev.frame.a1, ev.frame.a2)
  }

  /** A message may be staged for a parked receiver by a send on its endpoint, by its own device, or by a fault. */
  predicate StagedWhy(k: Kernel, ev: Event, t: Tid, m: PendingMsg) {
    || (exists e: EpId :: SendsOn(k, ev, e) && k.eps[e].ReceiverWaiting? && k.eps[e].tid == t
          && m == PendingMsg(k.eps[e].dst, SentBytes(ev)) && ev.frame.a2 <= k.eps[e].cap)
    || (exists d: DevId :: ev.Syscall? && ev.num == SYS_IRQ_RAISE
          && DeviceCap(Cur(k), ev.frame.a0, DEV_RIGHT_DRIVER_CONTROL) == Granted(d)
          && k.routes[d].receiver == t && ParkedAs(k.eps[IrqEndpoint(d)], t) && k.eps[IrqEndpoint(d)].ReceiverWaiting?
          && m == PendingMsg(k.eps[IrqEndpoint(d)].dst, [IRQ_EVENT_CODE]))
    || (exists e: EpId :: !ev.Syscall? && e in {EP_FAULT, EP_EVENT} && k.eps[e].ReceiverWaiting?
          && k.eps[e].tid == t && m == PendingMsg(k.eps[e].dst, [FAULT_CODE_WATCHDOG]))
  }

  predicate CopiedWhy(k: Kernel, ev: Event, t: Tid, from: Tid, m: PendingMsg) {
    exists e: EpId :: ev.Syscall? && ev.num == SYS_RECV && t == k.current
      && EndpointCap(Cur(k), ev.frame.a0, RIGHT_RECV) == Granted(e)
      && k.eps[e].SenderWaiting? && k.eps[e].tid == from && k.eps[e].len <= IPC_MSG_MAX
      && m == PendingMsg(ev.frame.a1, k.kmsg[..k.eps[e].len])
  }

  /** A device event is given to the registered receiver, by raising it or by that task's own receive. */
  predicate IrqGivenWhy(k: Kernel, ev: Event, d: DevId, t: Tid) {
    && k.routes[d].receiver == t && ev.Syscall?
    && (|| (ev.num == SYS_IRQ_RAISE && DeviceCap(Cur(k), ev.frame.a0, DEV_RIGHT_DRIVER_CONTROL) == Granted(d))
        || (ev.num == SYS_RECV && t == k.current && k.routes[d].pending
            && EndpointCap(Cur(k), ev.frame.a0, RIGHT_RECV) == Granted(IrqEndpoint(d))))
  }

  predicate DroppedWhy(k: Kernel, ev: Event, t: Tid, m: PendingMsg) {
    && k.tasks[t].pending == Some(m) && ev.Syscall? && Target(k, ev.num, ev.frame.a0) == Some(t)
    && Controls(Cur(k))
  }

  predicate Explained(k: Kernel, ev: Event, n: Note) {
    match n
    case Staged(t, m) => StagedWhy(k, ev, t, m)
    case Delivered(t, m) => t == Step(k, ev).current
    case Dropped(t, m) => DroppedWhy(k, ev, t, m)
    case Copied(t, from, m) => CopiedWhy(k, ev, t, from, m)
    case IrqGiven(d, t) => IrqGivenWhy(k, ev, d, t)
  }

  /** `k'` only adds to the journal of `k`. */
  predicate Extends(k: Kernel, k': Kernel) { k.journal <= k'.journal }

  function News(k: Kernel, k': Kernel): seq<Note>
    requires Extends(k, k')
  {
    k'.journal[|k.journal|..]
  }

  lemma RescheduleNews(k: Kernel)
    ensures Extends(k, Reschedule(k))
    ensures News(k, Reschedule(k)) == [] || (|News(k, Reschedule(k))| == 1 && News(k, Reschedule(k))[0].Delivered?
              && News(k, Reschedule(k))[0].tid == Reschedule(k).current)
  {
    hide BestOf;
  }

  /** A reschedule after `mid` explains its own delivery; `mid` explains the rest. */
  lemma ThenReschedule(k: Kernel, mid: Kernel, notes: seq<Note>)
    requires mid.journal == k.journal + notes
    ensures Extends(k, Reschedule(mid))
    ensures forall n | n in News(k, Reschedule(mid)) ::
              n in notes || (n.Delivered? && n.tid == Reschedule(mid).current)
  {
    hide Reschedule;
    RescheduleNews(mid);
    assert News(k, Reschedule(mid)) == notes + News(mid, Reschedule(mid));
  }

  lemma SendNews(k: Kernel, ev: Event)
    requires Inv(k) && k.status == Live && ev.Syscall? && ev.num == SYS_SEND && ev.frame == k.frame
    ensures Extends(k, IpcSend(k, ev.mem))
    ensures forall n | n in News(k, IpcSend(k, ev.mem)) ::
              || (n.Delivered? && n.tid == IpcSend(k, ev.mem).current)
              || (n.Staged? && StagedWhy(k, ev, n.tid, n.msg))
  {
    hide Reschedule;
    CurrentCaps(k);
    var check := EndpointCap(Cur(k), k.frame.a0, RIGHT_SEND);
    if check.Granted? && k.frame.a2 <= IPC_MSG_MAX && InReadableWindow(k.cfg, k.frame.a1, k.frame.a2) {
      GrantedExists(Cur(k), k.frame.a0, RIGHT_SEND);
      var e: EpId, len := check.id, k.frame.a2;
      assert SendsOn(k, ev, e);
      var k1 := k.(kmsg := Overlay(k.kmsg, SentBytes(ev)));
      assert k1.kmsg[..len] == SentBytes(ev);
      match k.eps[e] {
        case ReceiverWaiting(tid, dst, cap) =>
        case Idle => ThenReschedule(k, SaveCurrent(SetEp(k1, e, SenderWaiting(k.current, len)), Blocked), []);
        case SenderWaiting(_, _) =>
      }
    }
  }

  lemma RecvNews(k: Kernel, ev: Event)
    requires Inv(k) && k.status == Live && ev.Syscall? && ev.num == SYS_RECV && ev.frame == k.frame
    ensures Extends(k, IpcRecv(k))
    ensures forall n | n in News(k, IpcRecv(k)) ::
              || (n.Delivered? && n.tid == IpcRecv(k).current)
              || (n.Copied? && CopiedWhy(k, ev, n.tid, n.from, n.msg))
              || (n.IrqGiven? && IrqGivenWhy(k, ev, n.dev, n.tid))
  {
    hide Reschedule, IrqPendingFor;
    CurrentCaps(k);
    var check := EndpointCap(Cur(k), k.frame.a0, RIGHT_RECV);
    if check.Granted? {
      GrantedExists(Cur(k), k.frame.a0, RIGHT_RECV);
      var e: EpId := check.id;
      assert EpOk(k, e);
      PendingForMeans(k.routes, e, k.current);
      var k1 := SaveCurrent(SetEp(k, e, ReceiverWaiting(k.current, k.frame.a1, k.frame.a2)), Blocked);
      ThenReschedule(k, k1, []);
      var k' := IpcRecv(k);
      if k.eps[e].SenderWaiting? && k'.eps[e].Idle? {
        assert k'.journal == k.journal + [Copied(k.current, k.eps[e].tid, PendingMsg(k.frame.a1, k.kmsg[..k.eps[e].len]))];
      }
    }
  }

  lemma PendingForMeans(routes: Routes, e: nat, t: Tid)
    ensures IrqPendingFor(routes, e, t).Some? ==>
              var d := IrqPendingFor(routes, e, t).value;
              IrqEndpoint(d) == e && routes[d].pending && routes[d].receiver == t
  {
  }

  lemma IrqNews(k: Kernel, ev: Event)
    requires Inv(k) && k.status == Live && ev.Syscall? && ev.num == SYS_IRQ_RAISE && ev.frame == k.frame
    ensures Extends(k, SysIrqRaise(k))
    ensures forall n | n in News(k, SysIrqRaise(k)) ::
              || (n.Staged? && StagedWhy(k, ev, n.tid, n.msg))
              || (n.IrqGiven? && IrqGivenWhy(k, ev, n.dev, n.tid))
  {
    var check := DeviceCap(Cur(k), k.frame.a0, DEV_RIGHT_DRIVER_CONTROL);
    if check.Granted? {
      var d: DevId := check.id;
      var ep := k.eps[IrqEndpoint(d)];
      if ep.ReceiverWaiting? && ep.tid == k.routes[d].receiver {
        assert StagedWhy(k, ev, ep.tid, PendingMsg(ep.dst, [IRQ_EVENT_CODE]));
      }
    }
  }

  lemma StartNews(k: Kernel, ev: Event)
    requires Inv(k) && k.status == Live && ev.Syscall? && ev.num == SYS_TASK_START && ev.frame == k.frame
    ensures Extends(k, SysTaskStart(k))
    ensures forall n | n in News(k, SysTaskStart(k)) :: n.Dropped? && DroppedWhy(k, ev, n.tid, n.msg)
  {
    hide HoldsCap, GrantedRoutes, ClearedEps;
  }

  lemma RestartNews(k: Kernel, ev: Event)
    requires ev.Syscall? && ev.num == SYS_TASK_RESTART && ev.frame == k.frame
    ensures Extends(k, SysTaskRestart(k))
    ensures forall n | n in News(k, SysTaskRestart(k)) :: n.Dropped? && DroppedWhy(k, ev, n.tid, n.msg)
  {
    hide HoldsCap, ClearedEps;
  }

  lemma KillNews(k: Kernel, ev: Event)
    requires ev.Syscall? && ev.num == SYS_TASK_KILL && ev.frame == k.frame
    ensures Extends(k, SysTaskKill(k))
    ensures forall n | n in News(k, SysTaskKill(k)) ::
              (n.Dropped? && DroppedWhy(k, ev, n.tid, n.msg)) || (n.Delivered? && n.tid == SysTaskKill(k).current)
  {
    hide Reschedule, HoldsCap, ClearedEps, DroppedRoutes;
    if k.frame.a0 < MAX_TASKS {
      var t: Tid := k.frame.a0;
      ThenReschedule(k, Kill(k, t), if k.tasks[t].pending.Some? then [Dropped(t, k.tasks[t].pending.value)] else []);
    }
  }

  lemma NotifyNews(k: Kernel, e: EpId)
    ensures NotifyEndpoint(k, e, FAULT_CODE_WATCHDOG).journal ==
            k.journal + (if k.eps[e].ReceiverWaiting? && k.eps[e].cap >= 1 && ValidUserBuf(k.eps[e].dst, 1)
                         then [Staged(k.eps[e].tid, PendingMsg(k.eps[e].dst, [FAULT_CODE_WATCHDOG]))] else [])
    ensures forall f: EpId | f != e :: NotifyEndpoint(k, e, FAULT_CODE_WATCHDOG).eps[f] == k.eps[f]
  {
    assert k.journal + [] == k.journal;
  }

  lemma FaultNews(k: Kernel, ev: Event)
    requires !ev.Syscall?
    ensures Extends(k, ContainFault(k))
    ensures forall n | n in News(k, ContainFault(k)) ::
              (n.Staged? && StagedWhy(k, ev, n.tid, n.msg)) || (n.Delivered? && n.tid == ContainFault(k).current)
  {
    hide Reschedule, NotifyEndpoint, DroppedRoutes;
    var k1 := DropIrqs(SetState(k, k.current, Faulted), k.current);
    NotifyNews(k1, EP_FAULT);
    var k2 := NotifyEndpoint(k1, EP_FAULT, FAULT_CODE_WATCHDOG);
    NotifyNews(k2, EP_EVENT);
    var k3 := NotifyEndpoint(k2, EP_EVENT, FAULT_CODE_WATCHDOG);
    var notes := k3.journal[|k.journal|..];
    assert k3.journal == k.journal + notes;
    forall n | n in notes
      ensures n.Staged? && StagedWhy(k, ev, n.tid, n.msg)
    {
      var e: EpId := if k.eps[EP_FAULT].ReceiverWaiting?
                        && n == Staged(k.eps[EP_FAULT].tid, PendingMsg(k.eps[EP_FAULT].dst, [FAULT_CODE_WATCHDOG]))
                     then EP_FAULT else EP_EVENT;
      assert n == Staged(k.eps[e].tid, PendingMsg(k.eps[e].dst, [FAULT_CODE_WATCHDOG]));
    }
    ThenReschedule(k, k3, notes);
  }

  lemma PreemptNews(k: Kernel)
    ensures Extends(k, Preempt(k))
    ensures forall n | n in News(k, Preempt(k)) :: n.Delivered? && n.tid == Preempt(k).current
  {
    hide BestOf;
  }

  /**
   Every entry a step adds to the journal has its reason in the state before: a
   message staged carries the sender's bytes of that moment to the receiver parked
   on the endpoint the sender may send on, or a device event to the registered
   receiver, or a fault notice; a message is dropped only by task control; a
   sender-first copy comes from the staging buffer; and a device event is only
   ever given to its registered receiver.
   */
  lemma StepExplains(k: Kernel, ev: Event)
    requires Inv(k) && k.status == Live
    ensures Extends(k, Step(k, ev))
    ensures forall n | n in News(k, Step(k, ev)) :: Explained(k, ev, n)
  {
    hide IpcSend, IpcRecv, SysIrqRaise, SysTaskStart, SysTaskKill, SysTaskRestart, Preempt, ContainFault, Reschedule, Core,
      HoldsCap;
    var k1 := k.(frame := ev.frame);
    match ev
    case Syscall(num, _, mem, result) =>
      var k2 := k1.(miss := 0);
      CoreFrame(k, k2);
      if num == SYS_YIELD {
        ThenReschedule(k2, SaveCurrent(k2, Ready), []);
      } else if num == SYS_EXIT {
        ThenReschedule(k2, SetState(k2, k.current, Killed), []);
      } else if num == SYS_SEND {
        SendNews(k2, ev);
        SameWhy(k, k2, ev);
      } else if num == SYS_RECV {
        RecvNews(k2, ev);
        SameWhy(k, k2, ev);
      } else if num == SYS_IRQ_RAISE {
        IrqNews(k2, ev);
        SameWhy(k, k2, ev);
      } else if num == SYS_TASK_START {
        StartNews(k2, ev);
      } else if num == SYS_TASK_RESTART {
        RestartNews(k2, ev);
      } else if num == SYS_TASK_KILL {
        KillNews(k2, ev);
      }
    case TimerTick(_) =>
      var k2 := k1.(ticks := k1.ticks + 1, miss := k1.miss + 1);
      PreemptNews(k2);
      FaultNews(k2, ev);
      SameWhy(k, k2, ev);
    case UserFault(_) =>
      FaultNews(k1, ev);
      SameWhy(k, k1, ev);
  }

  lemma SameWhy(k: Kernel, k': Kernel, ev: Event)
    requires k'.tasks == k.tasks && k'.eps == k.eps && k'.routes == k.routes && k'.current == k.current
    requires k'.cfg == k.cfg && k'.kmsg == k.kmsg
    ensures forall t: Tid, m: PendingMsg :: StagedWhy(k', ev, t, m) ==> StagedWhy(k, ev, t, m)
    ensures forall t: Tid, f: Tid, m: PendingMsg :: CopiedWhy(k', ev, t, f, m) ==> CopiedWhy(k, ev, t, f, m)
    ensures forall d: DevId, t: Tid :: IrqGivenWhy(k', ev, d, t) ==> IrqGivenWhy(k, ev, d, t)
  {
    forall t: Tid, m: PendingMsg | StagedWhy(k', ev, t, m)
      ensures StagedWhy(k, ev, t, m)
    {
      if e: EpId :| SendsOn(k', ev, e) {
        assert SendsOn(k, ev, e);
      }
    }
  }

  // ---- From sender to receiver over a run -----------------------------------

  lemma {:induction false} RunExtends(k: Kernel, evs: seq<Event>)
    requires Inv(k)
    ensures Extends(k, Run(k, evs))
    decreases |evs|
  {
    hide Step, Inv;
    if evs != [] && k.status == Live {
      StepExplains(k, evs[0]);
      StepKeeps(k, evs[0]);
      RunExtends(Step(k, evs[0]), evs[1..]);
    } else if evs != [] {
      HaltStays(k, evs);
    }
  }

  /** The step of a run that wrote journal entry `h`, and its reason for it. */
  lemma {:induction false} EntryIsExplained(k: Kernel, evs: seq<Event>, h: nat) returns (n: nat)
    requires Inv(k) && |k.journal| <= h < |Run(k, evs).journal|
    ensures n < |evs| && Run(k, evs[..n]).status == Live
    ensures |Run(k, evs[..n]).journal| <= h < |Step(Run(k, evs[..n]), evs[n]).journal|
    ensures Explained(Run(k, evs[..n]), evs[n], Run(k, evs).journal[h])
    decreases |evs|
  {
    hide Step, Inv, Explained;
    if k.status != Live {
      HaltStays(k, evs);
    }
    StepExplains(k, evs[0]);
    StepKeeps(k, evs[0]);
    var k1 := Step(k, evs[0]);
    RunExtends(k1, evs[1..]);
    if h < |k1.journal| {
      n := 0;
      assert evs[..0] == [];
      assert Run(k, evs).journal[h] == k1.journal[h] == News(k, k1)[h - |k.journal|];
    } else {
      var m := EntryIsExplained(k1, evs[1..], h);
      n := m + 1;
      assert evs[..n][0] == evs[0] && evs[..n][1..] == evs[1..][..m];
    }
  }

  /**
   Delivery from end to end, for every run from boot: whatever is copied to a task at
   resume was staged at an earlier step `n` of the run, with the bytes the sender's
   buffer held at that step, or as a device event or fault notice raised by it; and
   nothing was staged, delivered or dropped for the task in between.
   */
  lemma DeliveryComesFromSend(k: Kernel, evs: seq<Event>, i: nat) returns (h: nat, n: nat)
    requires Booted(k) && i < |Run(k, evs).journal| && Run(k, evs).journal[i].Delivered?
    ensures var j := Run(k, evs).journal;
            && n < |evs| && StagedWhy(Run(k, evs[..n]), evs[n], j[i].tid, j[i].msg)
            && |Run(k, evs[..n]).journal| <= h < |Step(Run(k, evs[..n]), evs[n]).journal|
            && h < i && j[h] == Staged(j[i].tid, j[i].msg)
            && (forall x | h < x < i :: !About(j[x], j[i].tid))
  {
    hide Run, Step, Inv, StagedWhy;
    BootedInv(k);
    h := DeliveryIsExact(k, evs, i);
    n := EntryIsExplained(k, evs, h);
  }

  // ---- Pending device events ------------------------------------------------

  /**
   The receiver of the pending event of `d` is gone after the step: it ran and
   faulted, it was killed under Control, or it had been killed and a raise of this
   very device under driver control found it so.
   */
  predicate ReceiverGone(k: Kernel, ev: Event, d: DevId) {
    var r := k.routes[d].receiver;
    && r < MAX_TASKS
    && (|| (!ev.Syscall? && r == k.current && Step(k, ev).tasks[r].state == Faulted)
        || (ev.Syscall? && ev.num == SYS_TASK_KILL && ev.frame.a0 == r && Controls(Cur(k))
            && Step(k, ev).tasks[r].state == Killed)
        || (ev.Syscall? && ev.num == SYS_IRQ_RAISE && k.tasks[r].state == Killed
            && DeviceCap(Cur(k), ev.frame.a0, DEV_RIGHT_DRIVER_CONTROL) == Granted(d)))
  }

  lemma InvAt(k: Kernel, e: EpId, d: DevId)
    requires Core(k)
    ensures EpOk(k, e) && RouteOk(k, d)
  {
  }

  lemma RescheduleKeepsRoutes(k: Kernel)
    ensures Reschedule(k).routes == k.routes
  {
    hide BestOf;
  }

  lemma SyscallRoutes(k: Kernel, ev: Event, d: DevId)
    requires Inv(k) && k.status == Live && ev.Syscall? && ev.frame == k.frame && k.routes[d].pending
    requires ev.num !in {SYS_RECV, SYS_IRQ_RAISE, SYS_TASK_KILL, SYS_TASK_START}
    ensures OnSyscall(k, ev.num, ev.mem, ev.result).routes == k.routes
  {
    hide Reschedule, EndpointCap, InReadableWindow, HoldsCap, ClearedEps, Overlay;
    var k1 := k.(miss := 0);
    RescheduleKeepsRoutes(SaveCurrent(k1, Ready));
    RescheduleKeepsRoutes(SetState(k1, k.current, Killed));
    if k.frame.a2 <= IPC_MSG_MAX {
      var k2 := k1.(kmsg := Overlay(k.kmsg, UserBytes(ev.mem, k.frame.a1, k.frame.a2)));
      var check := EndpointCap(Cur(k), k.frame.a0, RIGHT_SEND);
      if check.Granted? && check.id < NUM_ENDPOINTS {
        RescheduleKeepsRoutes(SaveCurrent(SetEp(k2, check.id, SenderWaiting(k.current, k.frame.a2)), Blocked));
      }
    }
  }

  lemma RecvRoutes(k: Kernel, d: DevId)
    requires Inv(k) && k.status == Live && k.routes[d].pending
    ensures k.routes[d].receiver < MAX_TASKS && Extends(k, IpcRecv(k))
    ensures IpcRecv(k).routes[d].pending <==> IrqGiven(d, k.routes[d].receiver) !in News(k, IpcRecv(k))
  {
    hide Reschedule, EndpointCap, Core;
    CurrentCaps(k);
    InvAt(k, 0, d);
    GrantedExists(Cur(k), k.frame.a0, RIGHT_RECV);
    var check := EndpointCap(Cur(k), k.frame.a0, RIGHT_RECV);
    if check.Granted? {
      InvAt(k, check.id, d);
      var mid := SaveCurrent(SetEp(k, check.id, ReceiverWaiting(k.current, k.frame.a1, k.frame.a2)), Blocked);
      RescheduleKeepsRoutes(mid);
      ThenReschedule(k, mid, []);
    }
  }

  /**
   A pending device event stays pending for its device exactly until it is given to
   its registered receiver or that receiver is gone.
   */
  lemma EventStaysPending(k: Kernel, ev: Event, d: DevId)
    requires Inv(k) && k.status == Live && k.routes[d].pending
    ensures Extends(k, Step(k, ev)) && k.routes[d].receiver < MAX_TASKS
    ensures Step(k, ev).routes[d].pending <==>
              !(IrqGiven(d, k.routes[d].receiver) in News(k, Step(k, ev)) || ReceiverGone(k, ev, d))
  {
    hide Reschedule, Core, HoldsCap, IpcRecv, OnSyscall, Tick, ContainFault;
    InvAt(k, 0, d);
    StepExplains(k, ev);
    if ev.Syscall? {
      SyscallEvent(k, ev, d);
    } else {
      InterruptEvent(k, ev, d);
    }
  }

  lemma SyscallEvent(k: Kernel, ev: Event, d: DevId)
    requires Inv(k) && k.status == Live && k.routes[d].pending && k.routes[d].receiver < MAX_TASKS && ev.Syscall?
    requires Extends(k, Step(k, ev)) && forall n | n in News(k, Step(k, ev)) :: Explained(k, ev, n)
    ensures Step(k, ev).routes[d].pending <==>
              !(IrqGiven(d, k.routes[d].receiver) in News(k, Step(k, ev)) || ReceiverGone(k, ev, d))
  {
    hide Reschedule, Core, HoldsCap, IpcRecv, SysTaskKill, SysTaskStart, SysIrqRaise, IpcSend, SysTaskRestart;
    var k2 := k.(frame := ev.frame, miss := 0);
    assert k.(frame := ev.frame).(miss := 0) == k2;
    CoreFrame(k, k2);
    if ev.num == SYS_RECV {
      RecvRoutes(k2, d);
    } else if ev.num == SYS_TASK_KILL {
      InvAt(k2, 0, d);
      KillRoutes(k2, d);
    } else if ev.num == SYS_TASK_START {
      StartRoutes(k2, d);
    } else if ev.num == SYS_IRQ_RAISE {
      IrqRoutes(k2, d);
    } else {
      CoreFrame(k, k.(frame := ev.frame));
      SyscallRoutes(k.(frame := ev.frame), ev, d);
    }
  }

  lemma InterruptEvent(k: Kernel, ev: Event, d: DevId)
    requires Inv(k) && k.status == Live && k.routes[d].pending && k.routes[d].receiver < MAX_TASKS && !ev.Syscall?
    requires Extends(k, Step(k, ev)) && forall n | n in News(k, Step(k, ev)) :: Explained(k, ev, n)
    ensures Step(k, ev).routes[d].pending <==>
              !(IrqGiven(d, k.routes[d].receiver) in News(k, Step(k, ev)) || ReceiverGone(k, ev, d))
  {
    hide Reschedule, Core, ContainFault, Preempt;
    var k1 := k.(frame := ev.frame);
    CoreFrame(k, k1);
    FaultRoutes(k1, d);
    FaultedStays(k1);
    var k2 := k1.(ticks := k1.ticks + 1, miss := k1.miss + 1);
    CoreFrame(k, k2);
    FaultRoutes(k2, d);
    FaultedStays(k2);
    PreemptStops(k2);
  }

  lemma KillRoutes(k: Kernel, d: DevId)
    requires k.routes[d].pending && k.routes[d].receiver < MAX_TASKS
    requires k.tasks[k.routes[d].receiver].state != Empty
    ensures SysTaskKill(k).routes[d].pending <==> !(k.frame.a0 == k.routes[d].receiver && Controls(Cur(k)))
    ensures !SysTaskKill(k).routes[d].pending ==> SysTaskKill(k).tasks[k.routes[d].receiver].state == Killed
  {
    hide Reschedule, HoldsCap, ClearedEps;
    if k.frame.a0 < MAX_TASKS {
      RescheduleKeepsRoutes(Kill(k, k.frame.a0));
      KilledStays(Kill(k, k.frame.a0), k.frame.a0);
    }
  }

  lemma KilledStays(k: Kernel, t: Tid)
    requires k.tasks[t].state == Killed
    ensures Reschedule(k).tasks[t].state == Killed
  {
    hide SelectHighest;
    SelectHighestIsBest(k.tasks, k.current);
  }

  lemma StartRoutes(k: Kernel, d: DevId)
    requires k.routes[d].pending
    ensures SysTaskStart(k).routes[d].pending
  {
    hide HoldsCap, ClearedEps, GrantedRoutes;
    if k.frame.a0 < |k.cfg.services| && k.cfg.services[k.frame.a0].slot < MAX_TASKS {
      var def := k.cfg.services[k.frame.a0];
      GrantedRoutesOnlyReceivers(k.routes, def.caps, def.slot, CAPS_PER_TASK, d);
    }
  }

  lemma IrqRoutes(k: Kernel, d: DevId)
    requires Inv(k) && k.status == Live && k.routes[d].pending && k.routes[d].receiver < MAX_TASKS
    ensures SysIrqRaise(k).routes[d].pending <==>
              !(k.tasks[k.routes[d].receiver].state == Killed
                && DeviceCap(Cur(k), k.frame.a0, DEV_RIGHT_DRIVER_CONTROL) == Granted(d))
    ensures Extends(k, SysIrqRaise(k)) && IrqGiven(d, k.routes[d].receiver) !in News(k, SysIrqRaise(k))
  {
    hide DeviceCap, Core, IrqRaise;
    DeviceCapBound(Cur(k), k.frame.a0, DEV_RIGHT_DRIVER_CONTROL);
    var check := DeviceCap(Cur(k), k.frame.a0, DEV_RIGHT_DRIVER_CONTROL);
    if check.Granted? {
      RaiseRoutes(k, check.id, d);
    }
  }

  lemma RaiseRoutes(k: Kernel, dev: DevId, d: DevId)
    requires Inv(k) && k.routes[d].pending && k.routes[d].receiver < MAX_TASKS
    ensures IrqRaise(k, dev).routes[d].pending <==> !(dev == d && k.tasks[k.routes[d].receiver].state == Killed)
    ensures Extends(k, IrqRaise(k, dev)) && IrqGiven(d, k.routes[d].receiver) !in News(k, IrqRaise(k, dev))
  {
    hide Core, IrqRaise;
    RaiseNotes(k, dev);
    RaisePending(k, dev, d);
    InvAt(k, 0, d);
  }

  lemma RaisePending(k: Kernel, dev: DevId, d: DevId)
    requires Inv(k) && k.routes[d].pending && k.routes[d].receiver < MAX_TASKS
    ensures IrqRaise(k, dev).routes[d].pending <==> !(dev == d && k.tasks[k.routes[d].receiver].state == Killed)
  {
    hide Core, ValidUserBuf;
    InvAt(k, 0, d);
  }

  /** A raise notes nothing, or one staging and one gift, to the receiver waiting there. */
  lemma RaiseNotes(k: Kernel, dev: DevId)
    ensures Extends(k, IrqRaise(k, dev))
    ensures forall e: DevId, t: Tid :: IrqGiven(e, t) in News(k, IrqRaise(k, dev)) ==>
              e == dev && k.eps[IrqEndpoint(e)].ReceiverWaiting? && k.eps[IrqEndpoint(e)].tid == t == k.routes[e].receiver
  {
    hide ValidUserBuf;
    var k' := IrqRaise(k, dev);
    if k'.journal == k.journal {
      assert News(k, k') == [];
    } else {
      var ep := k.eps[IrqEndpoint(dev)];
      var notes := [Staged(ep.tid, PendingMsg(ep.dst, [IRQ_EVENT_CODE])), IrqGiven(dev, ep.tid)];
      assert k'.journal == k.journal + notes;
      assert News(k, k') == notes;
    }
  }

  lemma FaultRoutes(k: Kernel, d: DevId)
    requires k.routes[d].pending
    ensures ContainFault(k).routes[d].pending <==> k.routes[d].receiver != k.current
    ensures Preempt(k).routes == k.routes
  {
    hide Reschedule, SelectHighest;
    var k1 := DropIrqs(SetState(k, k.current, Faulted), k.current);
    var k2 := NotifyEndpoint(k1, EP_FAULT, FAULT_CODE_WATCHDOG);
    RescheduleKeepsRoutes(NotifyEndpoint(k2, EP_EVENT, FAULT_CODE_WATCHDOG));
  }
}
