/** What a step can do to tasks other than the running one: who is woken, and who is stopped. */
module DispatchStops {
  import opened Base
  import opened Dispatch
  import opened DispatchInvariant
  import opened DispatchAuthority
  import opened DispatchContext
  import opened DispatchDelivery
  import opened DispatchProvenance
  import opened DispatchSchedule

  predicate Stopped(s: RtState) { s in {Faulted, Killed} }

  ghost predicate ParkedSomewhere(k: Kernel, t: Tid) { exists e: EpId :: ParkedAs(k.eps[e], t) }

  /** Task `t` is at most made ready or run, is not parked anew, and is woken only off an endpoint. */
  ghost predicate Unhindered(k: Kernel, k': Kernel, t: Tid) {
    && k'.tasks[t].state in {k.tasks[t].state, Ready, Running}
    && (k.tasks[t].state == Blocked && k'.tasks[t].state != Blocked ==> ParkedSomewhere(k, t))
    && (k.tasks[t].state != Ready && k'.tasks[t].state == Running ==> k.tasks[t].state == Running || ParkedSomewhere(k, t))
    && (forall e: EpId :: ParkedAs(k'.eps[e], t) ==> ParkedAs(k.eps[e], t))
  }

  lemma RescheduleUnhindered(k: Kernel, mid: Kernel, t: Tid)
    requires Unhindered(k, mid, t)
    requires mid.tasks[t].state == Ready ==> k.tasks[t].state == Ready || ParkedSomewhere(k, t)
    ensures Unhindered(k, Reschedule(mid), t)
  {
    hide SelectHighest;
    SelectHighestIsBest(mid.tasks, mid.current);
  }

  lemma SendUnhindered(k: Kernel, mem: nat -> byte, t: Tid)
    requires Inv(k) && k.status == Live && t != k.current
    ensures Unhindered(k, IpcSend(k, mem), t)
  {
    hide Reschedule, Overlay, InReadableWindow, EndpointCap, ValidUserBuf, Core;
    CurrentCaps(k);
    GrantedExists(Cur(k), k.frame.a0, RIGHT_SEND);
    var check := EndpointCap(Cur(k), k.frame.a0, RIGHT_SEND);
    if check.Granted? && k.frame.a2 <= IPC_MSG_MAX {
      var e: EpId := check.id;
      var k1 := k.(kmsg := Overlay(k.kmsg, UserBytes(mem, k.frame.a1, k.frame.a2)));
      assert k1.eps[e].ReceiverWaiting? ==> ParkedAs(k.eps[e], k1.eps[e].tid);
      RescheduleUnhindered(k, SaveCurrent(SetEp(k1, e, SenderWaiting(k.current, k.frame.a2)), Blocked), t);
    }
  }

  lemma RecvUnhindered(k: Kernel, t: Tid)
    requires Inv(k) && k.status == Live && t != k.current
    ensures Unhindered(k, IpcRecv(k), t)
  {
    hide Reschedule, EndpointCap, ValidUserBuf, Core, IrqPendingFor;
    CurrentCaps(k);
    GrantedExists(Cur(k), k.frame.a0, RIGHT_RECV);
    var check := EndpointCap(Cur(k), k.frame.a0, RIGHT_RECV);
    if check.Granted? {
      var e: EpId := check.id;
      InvAt(k, e, 0);
      assert k.eps[e].SenderWaiting? ==> ParkedAs(k.eps[e], k.eps[e].tid);
      RescheduleUnhindered(k, SaveCurrent(SetEp(k, e, ReceiverWaiting(k.current, k.frame.a1, k.frame.a2)), Blocked), t);
    }
  }

  lemma IrqUnhindered(k: Kernel, t: Tid)
    ensures Unhindered(k, SysIrqRaise(k), t)
  {
    hide DeviceCap, ValidUserBuf;
    DeviceCapBound(Cur(k), k.frame.a0, DEV_RIGHT_DRIVER_CONTROL);
    var check := DeviceCap(Cur(k), k.frame.a0, DEV_RIGHT_DRIVER_CONTROL);
    if check.Granted? {
      var e := IrqEndpoint(check.id);
      assert k.eps[e].ReceiverWaiting? ==> ParkedAs(k.eps[e], k.eps[e].tid);
    }
  }

  lemma StartUnhindered(k: Kernel, t: Tid)
    requires !(Controls(Cur(k)) && Target(k, SYS_TASK_START, k.frame.a0) == Some(t))
    ensures Unhindered(k, SysTaskStart(k), t)
  {
    hide HoldsCap, GrantedRoutes;
  }

  lemma RestartUnhindered(k: Kernel, t: Tid)
    requires !(Controls(Cur(k)) && Target(k, SYS_TASK_RESTART, k.frame.a0) == Some(t))
    ensures Unhindered(k, SysTaskRestart(k), t)
  {
    hide HoldsCap;
  }

  lemma KillUnhindered(k: Kernel, t: Tid)
    requires !(Controls(Cur(k)) && Target(k, SYS_TASK_KILL, k.frame.a0) == Some(t))
    ensures Unhindered(k, SysTaskKill(k), t)
  {
    hide HoldsCap, Reschedule, DroppedRoutes;
    if Controls(Cur(k)) && k.frame.a0 < MAX_TASKS {
      RescheduleUnhindered(k, Kill(k, k.frame.a0), t);
    }
  }

  lemma NotifyUnhindered(k: Kernel, mid: Kernel, e: EpId, code: byte, t: Tid)
    requires Unhindered(k, mid, t)
    requires mid.tasks[t].state == Ready ==> k.tasks[t].state == Ready || ParkedSomewhere(k, t)
    ensures Unhindered(k, NotifyEndpoint(mid, e, code), t)
    ensures NotifyEndpoint(mid, e, code).tasks[t].state == Ready ==> k.tasks[t].state == Ready || ParkedSomewhere(k, t)
  {
    if mid.eps[e].ReceiverWaiting? && mid.eps[e].tid == t {
      assert ParkedAs(mid.eps[e], t);
    }
  }

  lemma FaultUnhindered(k: Kernel, t: Tid)
    requires t != k.current
    ensures Unhindered(k, ContainFault(k), t)
  {
    hide Reschedule, NotifyEndpoint, DroppedRoutes, ParkedSomewhere;
    var k1 := DropIrqs(SetState(k, k.current, Faulted), k.current);
    NotifyUnhindered(k, k1, EP_FAULT, FAULT_CODE_WATCHDOG, t);
    var k2 := NotifyEndpoint(k1, EP_FAULT, FAULT_CODE_WATCHDOG);
    NotifyUnhindered(k, k2, EP_EVENT, FAULT_CODE_WATCHDOG, t);
    RescheduleUnhindered(k, NotifyEndpoint(k2, EP_EVENT, FAULT_CODE_WATCHDOG), t);
  }

  lemma PreemptUnhindered(k: Kernel, t: Tid)
    requires t != k.current
    ensures Unhindered(k, Preempt(k), t)
  {
    hide SelectHighest;
    SelectHighestIsBest(k.tasks, k.current);
  }

  /** A step leaves every other task unhindered, unless it is task control over that task. */
  lemma OthersUnhindered(k: Kernel, ev: Event, t: Tid)
    requires Inv(k) && k.status == Live && t != k.current && !Rearms(k, ev, t)
    ensures Unhindered(k, Step(k, ev), t)
  {
    hide IpcSend, IpcRecv, SysTaskStart, SysTaskKill, SysTaskRestart, SysIrqRaise, Preempt, ContainFault, Reschedule, HoldsCap,
      Core, ParkedSomewhere;
    var k1 := k.(frame := ev.frame);
    match ev
    case Syscall(num, _, mem, result) =>
      var k2 := k1.(miss := 0);
      CoreFrame(k, k2);
      SameParking(k, k2, t);
      if num == SYS_YIELD {
        RescheduleUnhindered(k, SaveCurrent(k2, Ready), t);
      } else if num == SYS_EXIT {
        RescheduleUnhindered(k, SetState(k2, k.current, Killed), t);
      } else if num == SYS_SEND {
        SendUnhindered(k2, mem, t);
      } else if num == SYS_RECV {
        RecvUnhindered(k2, t);
      } else if num == SYS_TASK_KILL {
        KillUnhindered(k2, t);
      } else if num == SYS_TASK_START {
        StartUnhindered(k2, t);
      } else if num == SYS_TASK_RESTART {
        RestartUnhindered(k2, t);
      } else if num == SYS_IRQ_RAISE {
        IrqUnhindered(k2, t);
      }
    case TimerTick(_) =>
      var k2 := k1.(ticks := k1.ticks + 1, miss := k1.miss + 1);
      SameParking(k, k2, t);
      PreemptUnhindered(k2, t);
      FaultUnhindered(k2, t);
    case UserFault(_) =>
      SameParking(k, k1, t);
      FaultUnhindered(k1, t);
  }

  lemma SameParking(k: Kernel, k': Kernel, t: Tid)
    requires k'.eps == k.eps
    ensures ParkedSomewhere(k', t) == ParkedSomewhere(k, t)
  {
  }

  // ---- Who stops a task -----------------------------------------------------

  /**
   A task stops in one of three ways: it runs and faults, it runs and exits, or a
   task that holds Control, perhaps itself, kills it.
   */
  lemma WhatStops(k: Kernel, ev: Event, t: Tid)
    requires Inv(k) && k.status == Live && !Stopped(k.tasks[t].state) && Stopped(Step(k, ev).tasks[t].state)
    ensures || (t == k.current && !ev.Syscall? && Step(k, ev).tasks[t].state == Faulted)
            || (t == k.current && ev.Syscall? && ev.num == SYS_EXIT)
            || (ev.Syscall? && ev.num == SYS_TASK_KILL && ev.frame.a0 == t && Controls(Cur(k)))
  {
    hide Step, HoldsCap, Core;
    if t == k.current {
      if ev.Syscall? {
        CallerStops(k, ev);
      } else {
        InterruptStops(k, ev);
      }
    } else if !Rearms(k, ev, t) {
      OthersUnhindered(k, ev, t);
    } else if ev.num != SYS_TASK_KILL {
      RearmedIsReady(k, ev, t);
    }
  }

  lemma InterruptStops(k: Kernel, ev: Event)
    requires Inv(k) && k.status == Live && !ev.Syscall? && Stopped(Step(k, ev).tasks[k.current].state)
    ensures Step(k, ev).tasks[k.current].state == Faulted
  {
    hide Preempt, ContainFault, Core;
    var k1 := k.(frame := ev.frame);
    var k2 := k1.(ticks := k1.ticks + 1, miss := k1.miss + 1);
    CoreFrame(k, k1);
    CoreFrame(k, k2);
    PreemptStops(k2);
    FaultedStays(k2);
    FaultedStays(k1);
  }

  /** The only syscalls that stop their caller are exit and self-kill. */
  lemma CallerStops(k: Kernel, ev: Event)
    requires Inv(k) && k.status == Live && ev.Syscall? && Stopped(Step(k, ev).tasks[k.current].state)
    ensures ev.num == SYS_EXIT || (ev.num == SYS_TASK_KILL && ev.frame.a0 == k.current && Controls(Cur(k)))
  {
    hide Reschedule, HoldsCap, ClearedEps, DroppedRoutes, Core, IpcSend, IpcRecv;
    var k2 := k.(frame := ev.frame).(miss := 0);
    CoreFrame(k, k2);
    if ev.num == SYS_YIELD {
      RescheduleState(SaveCurrent(k2, Ready), k.current);
    } else if ev.num == SYS_SEND {
      var mid := SendDecides(k2, ev.mem);
      RescheduleState(mid, k.current);
    } else if ev.num == SYS_RECV {
      var mid := RecvDecides(k2);
      RescheduleState(mid, k.current);
    } else if ev.num !in {SYS_TASK_KILL, SYS_EXIT} {
      OthersKeepRunning(k2, ev.num, ev.mem, ev.result);
    }
  }

  lemma RearmedIsReady(k: Kernel, ev: Event, t: Tid)
    requires k.status == Live && ev.Syscall? && Rearms(k, ev, t) && ev.num != SYS_TASK_KILL
    requires !Stopped(k.tasks[t].state)
    ensures !Stopped(Step(k, ev).tasks[t].state)
  {
    hide HoldsCap, GrantedRoutes, ClearedEps;
  }

  // ---- A stranded task stays stranded ---------------------------------------

  /** Blocked, and parked on no endpoint: nothing will wake it. */
  ghost predicate Stranded(k: Kernel, t: Tid) { k.tasks[t].state == Blocked && !ParkedSomewhere(k, t) }

  /** No step of the run is task control over `t`. */
  predicate LeftAlone(k: Kernel, evs: seq<Event>, t: Tid)
    decreases |evs|
  {
    evs == [] || (!Rearms(k, evs[0], t) && LeftAlone(Step(k, evs[0]), evs[1..], t))
  }

  /** A stranded task stays so through every run, unless a task with Control kills or re-arms it. */
  lemma {:induction false} StrandedStays(k: Kernel, evs: seq<Event>, t: Tid)
    requires Inv(k) && Stranded(k, t) && LeftAlone(k, evs, t)
    ensures Stranded(Run(k, evs), t)
    decreases |evs|
  {
    hide Step, Rearms, Core;
    if k.status != Live {
      HaltStays(k, evs);
    } else if evs != [] {
      OthersUnhindered(k, evs[0], t);
      StepKeeps(k, evs[0]);
      StrandedStays(Step(k, evs[0]), evs[1..], t);
    }
  }

  // ---- What strands a task --------------------------------------------------

  /** The step contains a fault: one of the running task, or the end of its watchdog window. */
  predicate Contains(k: Kernel, ev: Event) {
    ev.UserFault? || (ev.TimerTick? && k.miss + 1 > WATCHDOG_WINDOW)
  }

  predicate WaitsWithNoRoom(k: Kernel, t: Tid, e: EpId) {
    k.eps[e].ReceiverWaiting? && k.eps[e].tid == t && k.eps[e].cap == 0
  }

  /** A task that was blocked and parked, and is blocked now, is still parked. */
  ghost predicate StillParked(k: Kernel, k': Kernel, t: Tid) {
    k.tasks[t].state == Blocked && ParkedSomewhere(k, t) && k'.tasks[t].state == Blocked ==> ParkedSomewhere(k', t)
  }

  /** Every endpoint is as before, or is one whose party was woken. */
  lemma ParkedOrWoken(k: Kernel, k': Kernel, t: Tid)
    requires forall e: EpId :: ParkedAs(k.eps[e], t) ==> ParkedAs(k'.eps[e], t) || k'.tasks[t].state != Blocked
    ensures StillParked(k, k', t)
  {
    if ParkedSomewhere(k, t) && k'.tasks[t].state == Blocked {
      var e: EpId :| ParkedAs(k.eps[e], t);
      assert ParkedAs(k'.eps[e], t);
    }
  }

  lemma RescheduleStillParks(k: Kernel, mid: Kernel, t: Tid)
    requires StillParked(k, mid, t)
    ensures StillParked(k, Reschedule(mid), t)
  {
    hide SelectHighest;
    SelectHighestIsBest(mid.tasks, mid.current);
  }

  lemma SendStillParks(k: Kernel, mem: nat -> byte, t: Tid)
    requires Inv(k) && k.status == Live && t != k.current
    ensures StillParked(k, IpcSend(k, mem), t)
  {
    hide Reschedule, Overlay, InReadableWindow, EndpointCap, ValidUserBuf, Core, StillParked;
    CurrentCaps(k);
    GrantedExists(Cur(k), k.frame.a0, RIGHT_SEND);
    var check := EndpointCap(Cur(k), k.frame.a0, RIGHT_SEND);
    var k' := IpcSend(k, mem);
    if check.Granted? && k.frame.a2 <= IPC_MSG_MAX && k.eps[check.id].Idle? && InReadableWindow(k.cfg, k.frame.a1, k.frame.a2) {
      var k1 := k.(kmsg := Overlay(k.kmsg, UserBytes(mem, k.frame.a1, k.frame.a2)));
      var mid := SaveCurrent(SetEp(k1, check.id, SenderWaiting(k.current, k.frame.a2)), Blocked);
      ParkedOrWoken(k, mid, t);
      RescheduleStillParks(k, mid, t);
    } else {
      ParkedOrWoken(k, k', t);
    }
  }

  lemma RecvStillParks(k: Kernel, t: Tid)
    requires Inv(k) && k.status == Live && t != k.current
    ensures StillParked(k, IpcRecv(k), t)
  {
    hide Reschedule, EndpointCap, ValidUserBuf, Core, IrqPendingFor, StillParked;
    CurrentCaps(k);
    GrantedExists(Cur(k), k.frame.a0, RIGHT_RECV);
    var check := EndpointCap(Cur(k), k.frame.a0, RIGHT_RECV);
    if check.Granted? {
      var e: EpId := check.id;
      InvAt(k, e, 0);
      var mid := SaveCurrent(SetEp(k, e, ReceiverWaiting(k.current, k.frame.a1, k.frame.a2)), Blocked);
      if IpcRecv(k) == Reschedule(mid) && k.eps[e].Idle? {
        ParkedOrWoken(k, mid, t);
        RescheduleStillParks(k, mid, t);
      } else {
        ParkedOrWoken(k, IpcRecv(k), t);
      }
    } else {
      ParkedOrWoken(k, IpcRecv(k), t);
    }
  }

  lemma IrqStillParks(k: Kernel, t: Tid)
    ensures StillParked(k, SysIrqRaise(k), t)
  {
    hide DeviceCap, ValidUserBuf, StillParked;
    DeviceCapBound(Cur(k), k.frame.a0, DEV_RIGHT_DRIVER_CONTROL);
    ParkedOrWoken(k, SysIrqRaise(k), t);
  }

  lemma StartStillParks(k: Kernel, t: Tid)
    ensures StillParked(k, SysTaskStart(k), t)
  {
    hide HoldsCap, GrantedRoutes, StillParked;
    ParkedOrWoken(k, SysTaskStart(k), t);
  }

  lemma RestartStillParks(k: Kernel, t: Tid)
    ensures StillParked(k, SysTaskRestart(k), t)
  {
    hide HoldsCap, StillParked;
    ParkedOrWoken(k, SysTaskRestart(k), t);
  }

  lemma KillStillParks(k: Kernel, t: Tid)
    ensures StillParked(k, SysTaskKill(k), t)
  {
    hide HoldsCap, Reschedule, DroppedRoutes, StillParked;
    if k.frame.a0 < MAX_TASKS {
      ParkedOrWoken(k, Kill(k, k.frame.a0), t);
      RescheduleStillParks(k, Kill(k, k.frame.a0), t);
      ParkedOrWoken(k, Return(Kill(k, k.frame.a0), 0), t);
    }
    ParkedOrWoken(k, Return(k, ERR_INVALID_CAP), t);
    ParkedOrWoken(k, Return(k, ERR_INVALID_ARG), t);
  }

  lemma PreemptStillParks(k: Kernel, t: Tid)
    requires t != k.current
    ensures StillParked(k, Preempt(k), t)
  {
    hide SelectHighest, StillParked;
    SelectHighestIsBest(k.tasks, k.current);
    ParkedOrWoken(k, Preempt(k), t);
  }

  /** Steps that contain no fault leave a parked task parked or wake it. */
  lemma OthersStillPark(k: Kernel, ev: Event, t: Tid)
    requires Inv(k) && k.status == Live && t != k.current && !Contains(k, ev)
    ensures StillParked(k, Step(k, ev), t)
  {
    hide IpcSend, IpcRecv, SysTaskStart, SysTaskKill, SysTaskRestart, SysIrqRaise, Preempt, ContainFault, Reschedule, HoldsCap,
      Core, StillParked;
    var k1 := k.(frame := ev.frame);
    match ev
    case Syscall(num, _, mem, result) =>
      var k2 := k1.(miss := 0);
      CoreFrame(k, k2);
      if num == SYS_YIELD {
        ParkedOrWoken(k, SaveCurrent(k2, Ready), t);
        RescheduleStillParks(k, SaveCurrent(k2, Ready), t);
      } else if num == SYS_EXIT {
        ParkedOrWoken(k, SetState(k2, k.current, Killed), t);
        RescheduleStillParks(k, SetState(k2, k.current, Killed), t);
      } else if num == SYS_SEND {
        SendStillParks(k2, mem, t);
      } else if num == SYS_RECV {
        RecvStillParks(k2, t);
      } else if num == SYS_TASK_KILL {
        KillStillParks(k2, t);
      } else if num == SYS_TASK_START {
        StartStillParks(k2, t);
      } else if num == SYS_TASK_RESTART {
        RestartStillParks(k2, t);
      } else if num == SYS_IRQ_RAISE {
        IrqStillParks(k2, t);
      } else {
        ParkedOrWoken(k, Step(k, ev), t);
      }
      FromSame(k, k2, Step(k, ev), t);
    case TimerTick(_) =>
      var k2 := k1.(ticks := k1.ticks + 1, miss := k1.miss + 1);
      PreemptStillParks(k2, t);
      FromSame(k, k2, Step(k, ev), t);
  }

  lemma FromSame(k: Kernel, k2: Kernel, k': Kernel, t: Tid)
    requires k2.eps == k.eps && k2.tasks == k.tasks
    ensures StillParked(k2, k', t) ==> StillParked(k, k', t)
  {
    SameParking(k, k2, t);
    hide ParkedSomewhere;
  }

  /** A caller that ends up blocked is parked. */
  lemma CallerParks(k: Kernel, ev: Event)
    requires Inv(k) && k.status == Live && Step(k, ev).tasks[k.current].state == Blocked
    ensures ParkedSomewhere(Step(k, ev), k.current)
  {
    hide Reschedule, IpcSend, IpcRecv, Core, SysTaskKill, SysTaskStart, SysTaskRestart, SysIrqRaise, HoldsCap, Preempt, ContainFault;
    var k1 := k.(frame := ev.frame);
    match ev
    case Syscall(num, _, mem, result) =>
      var k2 := k1.(miss := 0);
      CoreFrame(k, k2);
      if num == SYS_YIELD {
        RescheduleState(SaveCurrent(k2, Ready), k.current);
      } else if num == SYS_EXIT {
        RescheduleState(SetState(k2, k.current, Killed), k.current);
      } else if num == SYS_SEND {
        var mid := SendDecides(k2, mem);
        RescheduleKeepsAuthority(mid);
      } else if num == SYS_RECV {
        var mid := RecvDecides(k2);
        RescheduleKeepsAuthority(mid);
      } else if num == SYS_TASK_KILL {
        KillStops(k2);
      } else {
        OthersKeepRunning(k2, num, mem, result);
      }
    case TimerTick(_) =>
      var k2 := k1.(ticks := k1.ticks + 1, miss := k1.miss + 1);
      CoreFrame(k, k2);
      PreemptStops(k2);
      FaultedStays(k2);
    case UserFault(_) =>
      CoreFrame(k, k1);
      FaultedStays(k1);
  }

  lemma NotifyStrands(k: Kernel, e: EpId, code: byte, t: Tid)
    requires Core(k) && k.tasks[t].state == Blocked
    ensures Stranded(NotifyEndpoint(k, e, code), t) <==> Stranded(k, t) || WaitsWithNoRoom(k, t, e)
    ensures forall f: EpId | f != e :: NotifyEndpoint(k, e, code).eps[f] == k.eps[f]
  {
    var k' := NotifyEndpoint(k, e, code);
    InvAt(k, e, 0);
    if k.eps[e].ReceiverWaiting? && k.eps[e].tid == t {
      assert ParkedAs(k.eps[e], t);
      assert forall f: EpId :: f != e ==> !ParkedAs(k.eps[f], t);
    } else if ParkedSomewhere(k, t) {
      var f: EpId :| ParkedAs(k.eps[f], t);
      assert ParkedAs(k'.eps[f], t);
    }
  }

  lemma FaultStrands(k: Kernel, t: Tid)
    requires Inv(k) && k.status == Live && t != k.current && !Stranded(k, t)
    ensures Stranded(ContainFault(k), t) <==> WaitsWithNoRoom(k, t, EP_FAULT) || WaitsWithNoRoom(k, t, EP_EVENT)
  {
    hide Reschedule, NotifyEndpoint, DroppedRoutes, ParkedSomewhere, Core;
    FaultKeeps(k);
    var k1 := DropIrqs(SetState(k, k.current, Faulted), k.current);
    var k2 := NotifyEndpoint(k1, EP_FAULT, FAULT_CODE_WATCHDOG);
    var k3 := NotifyEndpoint(k2, EP_EVENT, FAULT_CODE_WATCHDOG);
    NotifyKeeps(k1, EP_FAULT, FAULT_CODE_WATCHDOG);
    SameParking(k, k1, t);
    RescheduleStrands(k3, t);
    if k.tasks[t].state == Blocked {
      NotifyStrands(k1, EP_FAULT, FAULT_CODE_WATCHDOG, t);
      if k2.tasks[t].state == Blocked {
        NotifyStrands(k2, EP_EVENT, FAULT_CODE_WATCHDOG, t);
      } else {
        NotifyUnblocks(k1, EP_FAULT, t);
        NotifyWakesBlocked(k2, EP_EVENT, FAULT_CODE_WATCHDOG);
      }
    } else {
      InvAt(k, EP_FAULT, 0);
      InvAt(k, EP_EVENT, 0);
      FaultUnhindered(k, t);
    }
  }

  lemma NotifyUnblocks(k: Kernel, e: EpId, t: Tid)
    requires Core(k) && k.tasks[t].state == Blocked && NotifyEndpoint(k, e, FAULT_CODE_WATCHDOG).tasks[t].state != Blocked
    ensures k.eps[e].ReceiverWaiting? && k.eps[e].tid == t && k.eps[e].cap > 0
    ensures forall f: EpId | f != e :: !ParkedAs(k.eps[f], t)
  {
    InvAt(k, e, 0);
    assert ParkedAs(k.eps[e], t);
  }

  lemma RescheduleStrands(k: Kernel, t: Tid)
    ensures Stranded(Reschedule(k), t) <==> Stranded(k, t)
  {
    hide SelectHighest;
    SelectHighestIsBest(k.tasks, k.current);
    SameParking(k, Reschedule(k), t);
  }

  /**
   What strands a task, exactly: a step that contains a fault, while the task waits with
   no room on one of the two channels the notice goes to. No other step does.
   */
  lemma WhatStrands(k: Kernel, ev: Event, t: Tid)
    requires Inv(k) && k.status == Live && !Stranded(k, t)
    ensures Stranded(Step(k, ev), t) <==>
              Contains(k, ev) && (WaitsWithNoRoom(k, t, EP_FAULT) || WaitsWithNoRoom(k, t, EP_EVENT))
  {
    hide Core, ParkedSomewhere, ContainFault, Preempt, OnSyscall;
    if t == k.current {
      NotWaiting(k, EP_FAULT);
      NotWaiting(k, EP_EVENT);
      if Step(k, ev).tasks[t].state == Blocked {
        CallerParks(k, ev);
      }
    } else if Contains(k, ev) {
      ContainStrands(k, ev, t);
    } else {
      OthersStillPark(k, ev, t);
      if !Rearms(k, ev, t) {
        OthersUnhindered(k, ev, t);
      } else if k.tasks[t].state != Blocked {
        RearmedNotBlocked(k, ev, t);
      }
    }
  }

  lemma NotWaiting(k: Kernel, e: EpId)
    requires Inv(k) && k.status == Live
    ensures !WaitsWithNoRoom(k, k.current, e)
  {
    InvAt(k, e, 0);
  }

  lemma RearmedNotBlocked(k: Kernel, ev: Event, t: Tid)
    requires k.status == Live && Rearms(k, ev, t) && t != k.current && k.tasks[t].state != Blocked
    ensures Step(k, ev).tasks[t].state != Blocked
  {
    hide HoldsCap, GrantedRoutes, ClearedEps, DroppedRoutes;
  }

  lemma ContainStrands(k: Kernel, ev: Event, t: Tid)
    requires Inv(k) && k.status == Live && !Stranded(k, t) && t != k.current && Contains(k, ev)
    ensures Stranded(Step(k, ev), t) <==> WaitsWithNoRoom(k, t, EP_FAULT) || WaitsWithNoRoom(k, t, EP_EVENT)
  {
    hide Core, ContainFault, Preempt, ParkedSomewhere;
    var k1 := k.(frame := ev.frame);
    var k2 := if ev.UserFault? then k1 else k1.(ticks := k1.ticks + 1, miss := k1.miss + 1);
    CoreFrame(k, k2);
    SameParking(k, k2, t);
    FaultStrands(k2, t);
  }
}
