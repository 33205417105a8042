/** Register contexts: a stopped task gets back the registers it trapped with, but for the result in a0. */
module DispatchContext {
  import opened Base
  import opened Dispatch
  import opened DispatchInvariant
  import opened DispatchAuthority
  import opened DispatchSchedule

  predicate SameButA0(f: TrapFrame, g: TrapFrame) { g == f.(a0 := g.a0) }

  /** The step is a control syscall on `t` by a task that holds control. */
  predicate Rearms(k: Kernel, ev: Event, t: Tid) {
    ev.Syscall? && Target(k, ev.num, ev.frame.a0) == Some(t) && Controls(Cur(k))
  }

  lemma RescheduleContext(k: Kernel)
    ensures forall t: Tid :: Reschedule(k).tasks[t].frame == k.tasks[t].frame
    ensures Reschedule(k).current != k.current ==> SameButA0(k.tasks[Reschedule(k).current].frame, Reschedule(k).frame)
  {
    hide BestOf;
  }

  lemma SendContext(k: Kernel, mem: nat -> byte, t: Tid)
    requires t != k.current
    ensures SameButA0(k.tasks[t].frame, IpcSend(k, mem).tasks[t].frame)
    ensures IpcSend(k, mem).current != k.current ==>
              SameButA0(IpcSend(k, mem).tasks[IpcSend(k, mem).current].frame, IpcSend(k, mem).frame)
  {
    hide Reschedule, InReadableWindow, HasRights, Overlay;
    if k.frame.a2 <= IPC_MSG_MAX {
      var k1 := k.(kmsg := Overlay(k.kmsg, UserBytes(mem, k.frame.a1, k.frame.a2)));
      var check := EndpointCap(Cur(k), k.frame.a0, RIGHT_SEND);
      if check.Granted? && check.id < NUM_ENDPOINTS {
        var mid := SaveCurrent(SetEp(k1, check.id, SenderWaiting(k.current, k.frame.a2)), Blocked);
        RescheduleContext(mid);
      }
    }
  }

  lemma RecvContext(k: Kernel, t: Tid)
    requires t != k.current
    ensures SameButA0(k.tasks[t].frame, IpcRecv(k).tasks[t].frame)
    ensures IpcRecv(k).current != k.current ==>
              SameButA0(IpcRecv(k).tasks[IpcRecv(k).current].frame, IpcRecv(k).frame)
  {
    hide Reschedule, HasRights;
    var check := EndpointCap(Cur(k), k.frame.a0, RIGHT_RECV);
    if check.Granted? && check.id < NUM_ENDPOINTS {
      var mid := SaveCurrent(SetEp(k, check.id, ReceiverWaiting(k.current, k.frame.a1, k.frame.a2)), Blocked);
      RescheduleContext(mid);
    }
  }

  lemma StartContext(k: Kernel, t: Tid)
    requires !(Controls(Cur(k)) && Target(k, SYS_TASK_START, k.frame.a0) == Some(t))
    ensures SysTaskStart(k).tasks[t].frame == k.tasks[t].frame && SysTaskStart(k).current == k.current
  {
    hide HoldsCap, GrantedRoutes, ClearedEps;
  }

  lemma RestartContext(k: Kernel, t: Tid)
    requires !(Controls(Cur(k)) && Target(k, SYS_TASK_RESTART, k.frame.a0) == Some(t))
    ensures SysTaskRestart(k).tasks[t].frame == k.tasks[t].frame && SysTaskRestart(k).current == k.current
  {
    hide HoldsCap, ClearedEps;
  }

  lemma IrqContext(k: Kernel, t: Tid)
    ensures SysIrqRaise(k).tasks[t].frame == k.tasks[t].frame && SysIrqRaise(k).current == k.current
  {
    hide DeviceCap;
  }

  lemma KillContext(k: Kernel, t: Tid)
    ensures SysTaskKill(k).tasks[t].frame == k.tasks[t].frame
    ensures SysTaskKill(k).current != k.current ==>
              SameButA0(SysTaskKill(k).tasks[SysTaskKill(k).current].frame, SysTaskKill(k).frame)
  {
    hide Reschedule, HoldsCap, ClearedEps, DroppedRoutes;
    if k.frame.a0 < MAX_TASKS {
      RescheduleContext(Kill(k, k.frame.a0));
    }
  }

  lemma NotifyContext(k: Kernel, e: EpId, code: byte)
    ensures NotifyEndpoint(k, e, code).current == k.current
    ensures forall t: Tid :: NotifyEndpoint(k, e, code).tasks[t].frame == k.tasks[t].frame
  {
  }

  lemma FaultContext(k: Kernel, t: Tid)
    ensures ContainFault(k).tasks[t].frame == k.tasks[t].frame
    ensures ContainFault(k).current != k.current ==>
              SameButA0(ContainFault(k).tasks[ContainFault(k).current].frame, ContainFault(k).frame)
  {
    hide Reschedule, DroppedRoutes, NotifyEndpoint;
    var k1 := DropIrqs(SetState(k, k.current, Faulted), k.current);
    NotifyContext(k1, EP_FAULT, FAULT_CODE_WATCHDOG);
    var k2 := NotifyEndpoint(k1, EP_FAULT, FAULT_CODE_WATCHDOG);
    NotifyContext(k2, EP_EVENT, FAULT_CODE_WATCHDOG);
    RescheduleContext(NotifyEndpoint(k2, EP_EVENT, FAULT_CODE_WATCHDOG));
  }

  lemma PreemptContext(k: Kernel, t: Tid)
    ensures t != k.current ==> Preempt(k).tasks[t].frame == k.tasks[t].frame
    ensures Preempt(k).current != k.current ==>
              && SameButA0(Preempt(k).tasks[Preempt(k).current].frame, Preempt(k).frame)
              && Preempt(k).tasks[k.current].frame == k.frame
  {
    hide BestOf;
  }

  /** A step leaves the saved registers of every other task alone, but for the result of a rendezvous in a0. */
  lemma StepKeepsContext(k: Kernel, ev: Event, t: Tid)
    requires t != k.current && !Rearms(k, ev, t)
    ensures SameButA0(k.tasks[t].frame, Step(k, ev).tasks[t].frame)
    ensures Step(k, ev).current != k.current ==>
              SameButA0(Step(k, ev).tasks[Step(k, ev).current].frame, Step(k, ev).frame)
  {
    hide IpcSend, IpcRecv, SysTaskStart, SysTaskKill, SysTaskRestart, SysIrqRaise, Preempt, ContainFault, Reschedule, HoldsCap;
    if k.status.Live? {
      var k1 := k.(frame := ev.frame);
      match ev
      case Syscall(num, _, mem, result) =>
        var k2 := k1.(miss := 0);
        if num == SYS_YIELD {
          RescheduleContext(SaveCurrent(k2, Ready));
        } else if num == SYS_EXIT {
          RescheduleContext(SetState(k2, k.current, Killed));
        } else if num == SYS_SEND {
          SendContext(k2, mem, t);
        } else if num == SYS_RECV {
          RecvContext(k2, t);
        } else if num == SYS_TASK_KILL {
          KillContext(k2, t);
        } else if num == SYS_TASK_START {
          StartContext(k2, t);
        } else if num == SYS_TASK_RESTART {
          RestartContext(k2, t);
        } else if num == SYS_IRQ_RAISE {
          IrqContext(k2, t);
        }
      case TimerTick(_) =>
        var k2 := k1.(ticks := k1.ticks + 1, miss := k1.miss + 1);
        PreemptContext(k2, t);
        FaultContext(k2, t);
      case UserFault(_) => FaultContext(k1, t);
    }
  }

  /** Through the run `t` stays off the processor until the last step, and no one re-arms it. */
  predicate Undisturbed(k: Kernel, evs: seq<Event>, t: Tid)
    decreases |evs|
  {
    evs == [] || (t != k.current && !Rearms(k, evs[0], t) && Undisturbed(Step(k, evs[0]), evs[1..], t))
  }

  /**
   Context isolation over every run: a task that was stopped and is not re-armed
   resumes with exactly the registers saved when it stopped, but for a0, whatever
   the other tasks did in between.
   */
  lemma {:induction false} ContextSurvives(k: Kernel, evs: seq<Event>, t: Tid)
    requires Undisturbed(k, evs, t)
    ensures SameButA0(k.tasks[t].frame, Run(k, evs).tasks[t].frame)
    ensures t != k.current && Run(k, evs).current == t ==> SameButA0(k.tasks[t].frame, Run(k, evs).frame)
    decreases |evs|
  {
    hide Step, Rearms;
    if evs != [] {
      StepKeepsContext(k, evs[0], t);
      var k1 := Step(k, evs[0]);
      if k1.current == t {
        OnceCurrent(k1, evs[1..], t);
      } else {
        ContextSurvives(k1, evs[1..], t);
      }
    }
  }

  lemma OnceCurrent(k: Kernel, evs: seq<Event>, t: Tid)
    requires Undisturbed(k, evs, t) && k.current == t
    ensures evs == [] && Run(k, evs) == k
  {
  }

  /** Whenever the running task stops but stays alive, what is saved is the frame it trapped with. */
  lemma StopSavesFrame(k: Kernel, ev: Event)
    requires Inv(k) && k.status == Live && Step(k, ev).tasks[k.current].state in {Ready, Blocked}
    ensures Step(k, ev).tasks[k.current].frame == ev.frame
  {
    hide Preempt, ContainFault, Reschedule, IpcSend, IpcRecv, SysTaskKill, OnSyscall, Core;
    var k1 := k.(frame := ev.frame);
    match ev
    case Syscall(num, _, mem, result) =>
      var k2 := k1.(miss := 0);
      CoreFrame(k, k2);
      SyscallSavesFrame(k1, num, mem, result);
    case TimerTick(_) =>
      var k2 := k1.(ticks := k1.ticks + 1, miss := k1.miss + 1);
      CoreFrame(k, k2);
      PreemptContext(k2, k.current);
      FaultedStays(k2);
      PreemptStops(k2);
    case UserFault(_) =>
      CoreFrame(k, k1);
      FaultedStays(k1);
  }

  lemma PreemptStops(k: Kernel)
    requires Cur(k).state == Running
    ensures Preempt(k).tasks[k.current].state == if Preempt(k).current == k.current then Running else Ready
  {
    hide BestOf;
  }

  lemma SyscallSavesFrame(k: Kernel, num: nat, mem: nat -> byte, result: int)
    requires Inv(k.(miss := 0)) && k.status == Live
    requires OnSyscall(k, num, mem, result).tasks[k.current].state in {Ready, Blocked}
    ensures OnSyscall(k, num, mem, result).tasks[k.current].frame == k.frame
  {
    hide Reschedule, IpcSend, IpcRecv, SysTaskKill, SysTaskStart, SysTaskRestart, SysIrqRaise, Core, HoldsCap;
    var k2 := k.(miss := 0);
    if num == SYS_YIELD {
      RescheduleContext(SaveCurrent(k2, Ready));
    } else if num == SYS_EXIT {
      RescheduleState(SetState(k2, k.current, Killed), k.current);
    } else if num == SYS_SEND {
      var mid := SendDecides(k2, mem);
      RescheduleContext(mid);
    } else if num == SYS_RECV {
      var mid := RecvDecides(k2);
      RescheduleContext(mid);
    } else if num == SYS_TASK_KILL {
      KillStops(k2);
    } else {
      OthersKeepRunning(k2, num, mem, result);
    }
  }

  lemma RescheduleState(k: Kernel, t: Tid)
    ensures Reschedule(k).tasks[t].state in {k.tasks[t].state, Running}
  {
    hide BestOf;
  }

  lemma KillStops(k: Kernel)
    requires Cur(k).state == Running
    ensures SysTaskKill(k).tasks[k.current].state !in {Ready, Blocked}
  {
    hide Reschedule, HoldsCap, ClearedEps, DroppedRoutes;
    if k.frame.a0 == k.current {
      RescheduleState(Kill(k, k.current), k.current);
    }
  }

  /**
   From trap to resume, over every run: a task that stops at `ev`, by yielding,
   blocking or being preempted, and is neither killed nor re-armed, next runs with
   exactly the registers it trapped with, but for the result in a0.
   */
  lemma ResumesWhereItStopped(k: Kernel, ev: Event, evs: seq<Event>)
    requires Inv(k) && k.status == Live && Step(k, ev).tasks[k.current].state in {Ready, Blocked}
    requires Undisturbed(Step(k, ev), evs, k.current) && evs != []
    requires Run(Step(k, ev), evs).current == k.current
    ensures SameButA0(ev.frame, Run(Step(k, ev), evs).frame)
  {
    hide Step, Run, Rearms, Core;
    StopSavesFrame(k, ev);
    ContextSurvives(Step(k, ev), evs, k.current);
  }

  lemma FaultedStays(k: Kernel)
    requires Inv(k) && k.status == Live
    ensures ContainFault(k).tasks[k.current].state == Faulted
  {
    hide NotifyEndpoint, SelectHighest;
    FaultKeeps(k);
    var k1 := DropIrqs(SetState(k, k.current, Faulted), k.current);
    NotifyKeeps(k1, EP_FAULT, FAULT_CODE_WATCHDOG);
    NotifyWakesBlocked(k1, EP_FAULT, FAULT_CODE_WATCHDOG);
    var k2 := NotifyEndpoint(k1, EP_FAULT, FAULT_CODE_WATCHDOG);
    NotifyWakesBlocked(k2, EP_EVENT, FAULT_CODE_WATCHDOG);
    var k3 := NotifyEndpoint(k2, EP_EVENT, FAULT_CODE_WATCHDOG);
    SelectHighestIsBest(k3.tasks, k3.current);
  }
}
