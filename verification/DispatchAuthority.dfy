/** Authority confinement: what a task's syscalls can change is bounded by the capabilities boot gave it. */
module DispatchAuthority {
  import opened Base
  import opened Dispatch
  import opened DispatchInvariant

  /** The capability at `index` is for endpoint `e` and has the right. */
  predicate EndpointRight(t: Tcb, index: nat, e: EpId, right: bv16) {
    && index < CAPS_PER_TASK && t.caps[index].Some?
    && t.caps[index].value.otype == EndpointObject && t.caps[index].value.objectId == e
    && HasRights(t.caps[index].value, right)
  }

  /** The capability at `index` is driver control over a device whose events are routed to `e`. */
  predicate DriverRight(t: Tcb, index: nat, e: EpId) {
    && index < CAPS_PER_TASK && t.caps[index].Some?
    && t.caps[index].value.otype == DeviceObject && t.caps[index].value.objectId < NUM_DEVICES
    && IrqEndpoint(t.caps[index].value.objectId) == e
    && HasRights(t.caps[index].value, DEV_RIGHT_DRIVER_CONTROL)
  }

  /** The task a control syscall kills or re-arms. */
  function Target(k: Kernel, num: nat, a0: u64): Option<nat> {
    if num in {SYS_TASK_KILL, SYS_TASK_RESTART} then Some(a0)
    else if num == SYS_TASK_START && a0 < |k.cfg.services| then Some(k.cfg.services[a0].slot)
    else None
  }

  /**
   What entitles task `t` to change endpoint `e` in `k`: for a send the Send right on
   it in the slot named, for a receive the Receive right, for a raise driver control
   routed to it, and for task control the Control right over the party parked there.
   */
  predicate Entitled(k: Kernel, t: Tcb, num: nat, a0: u64, e: EpId) {
    || (num == SYS_SEND && EndpointRight(t, a0, e, RIGHT_SEND))
    || (num == SYS_RECV && EndpointRight(t, a0, e, RIGHT_RECV))
    || (num == SYS_IRQ_RAISE && DriverRight(t, a0, e))
    || (Controls(t) && !k.eps[e].Idle? && Target(k, num, a0) == Some(k.eps[e].tid))
  }

  lemma RescheduleKeepsAuthority(k: Kernel)
    ensures Reschedule(k).eps == k.eps && Reschedule(k).cfg == k.cfg
    ensures forall t: Tid :: Reschedule(k).tasks[t].caps == k.tasks[t].caps
  {
    hide BestOf;
  }

  lemma SendConfined(k: Kernel, mem: nat -> byte, e: EpId)
    requires Inv(k) && k.status == Live
    ensures IpcSend(k, mem).eps[e] != k.eps[e] ==> EndpointRight(Cur(k), k.frame.a0, e, RIGHT_SEND)
    ensures IpcSend(k, mem).cfg == k.cfg && forall t: Tid :: IpcSend(k, mem).tasks[t].caps == k.tasks[t].caps
  {
    hide Reschedule, Overlay;
    CurrentCaps(k);
    var check := EndpointCap(Cur(k), k.frame.a0, RIGHT_SEND);
    if check.Granted? {
      GrantedExists(Cur(k), k.frame.a0, RIGHT_SEND);
      if k.frame.a2 <= IPC_MSG_MAX {
        var k1 := k.(kmsg := Overlay(k.kmsg, UserBytes(mem, k.frame.a1, k.frame.a2)));
        RescheduleKeepsAuthority(SaveCurrent(SetEp(k1, check.id, SenderWaiting(k.current, k.frame.a2)), Blocked));
      }
      if e == check.id {
        var c := Cur(k).caps[k.frame.a0];
        assert c.value.objectId == e;
      }
    }
  }

  lemma RecvConfined(k: Kernel, e: EpId)
    requires Inv(k) && k.status == Live
    ensures IpcRecv(k).eps[e] != k.eps[e] ==> EndpointRight(Cur(k), k.frame.a0, e, RIGHT_RECV)
    ensures IpcRecv(k).cfg == k.cfg && forall t: Tid :: IpcRecv(k).tasks[t].caps == k.tasks[t].caps
  {
    hide Reschedule;
    CurrentCaps(k);
    var check := EndpointCap(Cur(k), k.frame.a0, RIGHT_RECV);
    if check.Granted? {
      GrantedExists(Cur(k), k.frame.a0, RIGHT_RECV);
      RescheduleKeepsAuthority(SaveCurrent(SetEp(k, check.id, ReceiverWaiting(k.current, k.frame.a1, k.frame.a2)), Blocked));
      assert EpOk(k, check.id);
      if e == check.id {
        var c := Cur(k).caps[k.frame.a0];
        assert c.value.objectId == e;
      }
    }
  }

  lemma IrqConfined(k: Kernel, e: EpId)
    ensures SysIrqRaise(k).eps[e] != k.eps[e] ==> DriverRight(Cur(k), k.frame.a0, e)
    ensures SysIrqRaise(k).cfg == k.cfg && forall t: Tid :: SysIrqRaise(k).tasks[t].caps == k.tasks[t].caps
  {
    var check := DeviceCap(Cur(k), k.frame.a0, DEV_RIGHT_DRIVER_CONTROL);
    if check.Granted? && IrqEndpoint(check.id) == e {
      var c := Cur(k).caps[k.frame.a0];
      assert c.value.objectId == check.id;
    }
  }

  /** A capability table changes only to the table entry of the service asked for, when it first starts. */
  predicate Minted(k: Kernel, k': Kernel, index: nat, t: Tid) {
    && k.tasks[t].state == Empty
    && index < |k.cfg.services| && k.cfg.services[index].slot == t && k'.tasks[t].caps == k.cfg.services[index].caps
  }

  lemma StartConfined(k: Kernel, e: EpId)
    requires Inv(k) && k.status == Live
    ensures SysTaskStart(k).eps[e] != k.eps[e] ==> Entitled(k, Cur(k), SYS_TASK_START, k.frame.a0, e)
    ensures SysTaskStart(k).cfg == k.cfg
    ensures forall t: Tid :: SysTaskStart(k).tasks[t].caps != k.tasks[t].caps ==>
              Controls(Cur(k)) && Minted(k, SysTaskStart(k), k.frame.a0, t)
  {
    hide GrantedRoutes, HasRights;
    if Controls(Cur(k)) && k.frame.a0 < |k.cfg.services| {
      var def := k.cfg.services[k.frame.a0];
      assert def.slot < MAX_TASKS;
    }
  }

  lemma KillConfined(k: Kernel, e: EpId)
    requires Inv(k) && k.status == Live
    ensures SysTaskKill(k).eps[e] != k.eps[e] ==> Entitled(k, Cur(k), SYS_TASK_KILL, k.frame.a0, e)
    ensures SysTaskKill(k).cfg == k.cfg && forall t: Tid :: SysTaskKill(k).tasks[t].caps == k.tasks[t].caps
  {
    hide HasRights, Reschedule;
    if k.frame.a0 < MAX_TASKS {
      RescheduleKeepsAuthority(Kill(k, k.frame.a0));
    }
  }

  lemma RestartConfined(k: Kernel, e: EpId)
    requires Inv(k) && k.status == Live
    ensures SysTaskRestart(k).eps[e] != k.eps[e] ==> Entitled(k, Cur(k), SYS_TASK_RESTART, k.frame.a0, e)
    ensures SysTaskRestart(k).cfg == k.cfg && forall t: Tid :: SysTaskRestart(k).tasks[t].caps == k.tasks[t].caps
  {
    hide HasRights;
  }

  /**
   One syscall: an endpoint changes only by a send under Send on it, a receive under
   Receive on it, a raise under driver control of a device routed to it, or task
   control while the party parked there is being killed or re-armed; and capability
   tables change only by minting the entry of the service asked for.
   */
  lemma SyscallConfined(k: Kernel, ev: Event, e: EpId)
    requires Inv(k) && k.status == Live && ev.Syscall?
    ensures Step(k, ev).eps[e] != k.eps[e] ==> Entitled(k, Cur(k), ev.num, ev.frame.a0, e)
    ensures Step(k, ev).cfg == k.cfg
    ensures forall t: Tid :: Step(k, ev).tasks[t].caps != k.tasks[t].caps ==>
              ev.num == SYS_TASK_START && Controls(Cur(k)) && Minted(k, Step(k, ev), ev.frame.a0, t)
  {
    hide IpcSend, IpcRecv, SysTaskStart, SysTaskKill, SysTaskRestart, SysIrqRaise, Reschedule, HoldsCap, Core, Entitled,
      EndpointRight, DriverRight;
    var k1 := k.(frame := ev.frame, miss := 0);
    CoreFrame(k, k1);
    assert k.(frame := ev.frame).(miss := 0) == k1;
    SameEntitlement(k, k1, ev.num, ev.frame.a0, e);
    if ev.num == SYS_YIELD {
      RescheduleKeepsAuthority(SaveCurrent(k1, Ready));
    } else if ev.num == SYS_EXIT {
      RescheduleKeepsAuthority(SetState(k1, k.current, Killed));
    } else if ev.num == SYS_SEND {
      SendConfined(k1, ev.mem, e);
    } else if ev.num == SYS_RECV {
      RecvConfined(k1, e);
    } else if ev.num == SYS_TASK_START {
      StartConfined(k1, e);
    } else if ev.num == SYS_TASK_KILL {
      KillConfined(k1, e);
    } else if ev.num == SYS_TASK_RESTART {
      RestartConfined(k1, e);
    } else if ev.num == SYS_IRQ_RAISE {
      IrqConfined(k1, e);
    }
  }

  lemma SameEntitlement(k: Kernel, k': Kernel, num: nat, a0: u64, e: EpId)
    requires k'.eps == k.eps && k'.cfg == k.cfg
    ensures Entitled(k', Cur(k), num, a0, e) == Entitled(k, Cur(k), num, a0, e)
    ensures EndpointRight(Cur(k), a0, e, RIGHT_SEND) ==> Entitled(k, Cur(k), SYS_SEND, a0, e)
    ensures EndpointRight(Cur(k), a0, e, RIGHT_RECV) ==> Entitled(k, Cur(k), SYS_RECV, a0, e)
    ensures DriverRight(Cur(k), a0, e) ==> Entitled(k, Cur(k), SYS_IRQ_RAISE, a0, e)
  {
  }

  lemma NotifyConfined(k: Kernel, e: EpId, code: byte)
    ensures NotifyEndpoint(k, e, code).eps == if k.eps[e].ReceiverWaiting? then k.eps[e := Idle] else k.eps
    ensures NotifyEndpoint(k, e, code).cfg == k.cfg
    ensures forall t: Tid :: NotifyEndpoint(k, e, code).tasks[t].caps == k.tasks[t].caps
  {
  }

  lemma FaultConfined(k: Kernel)
    ensures forall e: EpId :: ContainFault(k).eps[e] != k.eps[e] ==>
              e in {EP_FAULT, EP_EVENT} && k.eps[e].ReceiverWaiting? && ContainFault(k).eps[e].Idle?
    ensures ContainFault(k).cfg == k.cfg && forall t: Tid :: ContainFault(k).tasks[t].caps == k.tasks[t].caps
  {
    hide Reschedule, NotifyEndpoint, DroppedRoutes;
    var k1 := DropIrqs(SetState(k, k.current, Faulted), k.current);
    NotifyConfined(k1, EP_FAULT, FAULT_CODE_WATCHDOG);
    var k2 := NotifyEndpoint(k1, EP_FAULT, FAULT_CODE_WATCHDOG);
    NotifyConfined(k2, EP_EVENT, FAULT_CODE_WATCHDOG);
    RescheduleKeepsAuthority(NotifyEndpoint(k2, EP_EVENT, FAULT_CODE_WATCHDOG));
  }

  lemma PreemptConfined(k: Kernel)
    ensures Preempt(k).eps == k.eps && Preempt(k).cfg == k.cfg
    ensures forall t: Tid :: Preempt(k).tasks[t].caps == k.tasks[t].caps
  {
    hide BestOf;
  }

  /** Ticks and faults touch only the two notification channels, and no capability table. */
  lemma InterruptConfined(k: Kernel, ev: Event)
    requires k.status == Live && !ev.Syscall?
    ensures forall e: EpId :: Step(k, ev).eps[e] != k.eps[e] ==>
              e in {EP_FAULT, EP_EVENT} && k.eps[e].ReceiverWaiting? && Step(k, ev).eps[e].Idle?
    ensures Step(k, ev).cfg == k.cfg && forall t: Tid :: Step(k, ev).tasks[t].caps == k.tasks[t].caps
  {
    hide Preempt, ContainFault;
    var k1 := k.(frame := ev.frame);
    if ev.TimerTick? {
      var k2 := k1.(ticks := k1.ticks + 1, miss := k1.miss + 1);
      PreemptConfined(k2);
      FaultConfined(k2);
    } else {
      FaultConfined(k1);
    }
  }

  // ---- Over whole runs ------------------------------------------------------

  /** A table boot can have given to task `t`: the one it was registered with, or that of a service in its slot. */
  predicate BootGiven(k0: Kernel, t: Tid, caps: CapTable) {
    caps == k0.tasks[t].caps
    || exists i | 0 <= i < |k0.cfg.services| :: k0.cfg.services[i].slot == t && k0.cfg.services[i].caps == caps
  }

  ghost predicate AllBootGiven(k0: Kernel, k: Kernel) {
    k.cfg == k0.cfg && forall t: Tid :: BootGiven(k0, t, k.tasks[t].caps)
  }

  lemma StepBootGiven(k0: Kernel, k: Kernel, ev: Event)
    requires Inv(k) && AllBootGiven(k0, k)
    ensures AllBootGiven(k0, Step(k, ev))
  {
    if k.status.Live? {
      hide Step, Controls;
      if ev.Syscall? {
        SyscallConfined(k, ev, 0);
      } else {
        InterruptConfined(k, ev);
      }
      forall t: Tid
        ensures BootGiven(k0, t, Step(k, ev).tasks[t].caps)
      {
        assert BootGiven(k0, t, k.tasks[t].caps);
        if Step(k, ev).tasks[t].caps != k.tasks[t].caps {
          assert Minted(k, Step(k, ev), ev.frame.a0, t);
        }
      }
    }
  }

  lemma {:induction false} RunBootGiven(k0: Kernel, k: Kernel, evs: seq<Event>)
    requires Inv(k) && AllBootGiven(k0, k)
    ensures AllBootGiven(k0, Run(k, evs))
    decreases |evs|
  {
    hide Step, Inv, AllBootGiven;
    if evs != [] {
      StepKeeps(k, evs[0]);
      StepBootGiven(k0, k, evs[0]);
      RunBootGiven(k0, Step(k, evs[0]), evs[1..]);
    }
  }

  /**
   Authority confinement over every run: after any history from boot, if a syscall
   of task `c` changes endpoint `e`, then the table boot gave `c` (its own, or its
   service entry) already entitles it to. No run creates authority.
   */
  lemma AuthorityConfinement(k0: Kernel, evs: seq<Event>, ev: Event, e: EpId)
    requires Booted(k0) && ev.Syscall?
    ensures var k := Run(k0, evs);
            k.status == Live && Step(k, ev).eps[e] != k.eps[e] ==>
              BootGiven(k0, k.current, Cur(k).caps) && Entitled(k, Cur(k), ev.num, ev.frame.a0, e)
  {
    hide Step, Run, Inv, Entitled, BootGiven;
    var k := Run(k0, evs);
    BootedInv(k0);
    RunKeeps(k0, evs);
    assert AllBootGiven(k0, k0) by {
      SelfGiven(k0);
    }
    RunBootGiven(k0, k0, evs);
    if k.status == Live {
      SyscallConfined(k, ev, e);
    }
  }

  lemma SelfGiven(k0: Kernel)
    ensures AllBootGiven(k0, k0)
  {
  }
}
