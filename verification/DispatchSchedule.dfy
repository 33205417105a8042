/** Scheduling: who runs after a decision, who cannot be passed over, and how long the timer alone can go on. */
module DispatchSchedule {
  import opened Base
  import opened Dispatch
  import opened DispatchInvariant

  /** No Ready task outranks the running one. */
  ghost predicate Topmost(k: Kernel) {
    forall t: Tid :: IsReady(k.tasks, t) ==> k.tasks[t].prio <= Cur(k).prio
  }

  lemma RescheduleIsTop(k: Kernel)
    requires k.status == Live
    ensures Reschedule(k).status == Live ==> Topmost(Reschedule(k))
    ensures Reschedule(k).status == Live ==> IsBest(k.tasks, k.current, MAX_TASKS, Reschedule(k).current)
    ensures Reschedule(k).status == Live ==> Reschedule(k).miss == 0
  {
    hide BestOf;
    SelectHighestIsBest(k.tasks, k.current);
    var sel := SelectHighest(k.tasks, k.current);
    if sel.Some? {
      var k' := Reschedule(k);
      forall t: Tid | IsReady(k'.tasks, t)
        ensures k'.tasks[t].prio <= Cur(k').prio
      {
        assert IsReady(k.tasks, t);
      }
    }
  }

  lemma PreemptIsTop(k: Kernel)
    requires k.status == Live && Cur(k).state == Running
    ensures Preempt(k).status == Live && Topmost(Preempt(k))
    ensures Preempt(k) == k || (Preempt(k).tasks[Preempt(k).current].prio > Cur(k).prio && Preempt(k).miss == 0)
    ensures Preempt(k) != k ==> IsBest(k.tasks, k.current, MAX_TASKS, Preempt(k).current)
    ensures Topmost(k) ==> Preempt(k) == k
  {
    hide BestOf;
    SelectHighestIsBest(k.tasks, k.current);
    var sel := SelectHighest(k.tasks, k.current);
    if sel.Some? {
      assert IsBest(k.tasks, k.current, MAX_TASKS, sel.value);
      var k' := Preempt(k);
      forall t: Tid | IsReady(k'.tasks, t)
        ensures k'.tasks[t].prio <= Cur(k').prio
      {
        assert t == k.current || IsReady(k.tasks, t);
      }
    }
  }

  /** The event ends with a scheduling decision: a tick, a fault, a yield, or the running task stopping. */
  predicate Decides(k: Kernel, ev: Event) {
    ev.TimerTick? || ev.UserFault? || ev.num == SYS_YIELD || Step(k, ev).tasks[k.current].state != Running
  }

  /**
   After every tick, yield, block, exit, self-kill or fault, the running task's
   priority is at least that of every Ready task.
   */
  lemma DecisionIsTop(k: Kernel, ev: Event)
    requires Inv(k) && k.status == Live && Decides(k, ev) && Step(k, ev).status == Live
    ensures Topmost(Step(k, ev))
  {
    hide Reschedule, Preempt, Topmost;
    var k1 := k.(frame := ev.frame);
    match ev
    case TimerTick(_) =>
      var k2 := k1.(ticks := k1.ticks + 1, miss := k1.miss + 1);
      if k2.miss <= WATCHDOG_WINDOW {
        PreemptIsTop(k2);
      } else {
        FaultIsReschedule(k2);
      }
    case UserFault(_) => FaultIsReschedule(k1);
    case Syscall(num, _, mem, result) =>
      CoreFrame(k, k1.(miss := 0));
      var mid := SyscallDecides(k1.(miss := 0), num, mem, result);
      RescheduleIsTop(mid);
  }

  lemma FaultIsReschedule(k: Kernel)
    requires k.status == Live
    ensures ContainFault(k).status == Live ==> Topmost(ContainFault(k)) && ContainFault(k).miss == 0
  {
    hide Reschedule, NotifyEndpoint, Topmost;
    var k1 := DropIrqs(SetState(k, k.current, Faulted), k.current);
    NotifyKeepsStatus(k1, EP_FAULT, FAULT_CODE_WATCHDOG);
    var k2 := NotifyEndpoint(k1, EP_FAULT, FAULT_CODE_WATCHDOG);
    NotifyKeepsStatus(k2, EP_EVENT, FAULT_CODE_WATCHDOG);
    RescheduleIsTop(NotifyEndpoint(k2, EP_EVENT, FAULT_CODE_WATCHDOG));
  }

  lemma NotifyKeepsStatus(k: Kernel, e: EpId, code: byte)
    ensures NotifyEndpoint(k, e, code).status == k.status
    ensures NotifyEndpoint(k, e, code).current == k.current
  {
  }

  /** The state a deciding syscall hands to the scheduler: only the caller may have changed its run state to a stopped one. */
  lemma SyscallDecides(k: Kernel, num: nat, mem: nat -> byte, result: int) returns (mid: Kernel)
    requires Inv(k) && k.status == Live && k.miss == 0
    requires num == SYS_YIELD || OnSyscall(k, num, mem, result).tasks[k.current].state != Running
    requires OnSyscall(k, num, mem, result).status == Live
    ensures OnSyscall(k, num, mem, result) == Reschedule(mid) && mid.status == Live && mid.current == k.current
    ensures forall t: Tid :: t != k.current && IsReady(k.tasks, t) ==> mid.tasks[t] == k.tasks[t]
    ensures forall t: Tid :: mid.tasks[t].prio == k.tasks[t].prio
    ensures mid.tasks[k.current].state != Running
  {
    hide Reschedule, BestOf, HoldsCap;
    assert k.(miss := 0) == k;
    if num == SYS_YIELD {
      mid := SaveCurrent(k, Ready);
    } else if num == SYS_EXIT {
      mid := SetState(k, k.current, Killed);
    } else if num == SYS_SEND {
      mid := SendDecides(k, mem);
    } else if num == SYS_RECV {
      mid := RecvDecides(k);
    } else if num == SYS_TASK_KILL {
      mid := Kill(k, k.frame.a0);
    } else {
      OthersKeepRunning(k, num, mem, result);
      assert false;
    }
  }

  lemma SendDecides(k: Kernel, mem: nat -> byte) returns (mid: Kernel)
    requires Inv(k) && k.status == Live && IpcSend(k, mem).tasks[k.current].state != Running
    ensures IpcSend(k, mem) == Reschedule(mid) && mid.status == Live && mid.current == k.current
    ensures forall t: Tid :: t != k.current ==> mid.tasks[t] == k.tasks[t]
    ensures mid.tasks[k.current].state == Blocked && mid.tasks[k.current].prio == Cur(k).prio
    ensures mid.tasks[k.current].frame == k.frame && exists e: EpId :: ParkedAs(mid.eps[e], k.current)
  {
    hide Reschedule, BestOf;
    CurrentCaps(k);
    GrantedExists(Cur(k), k.frame.a0, RIGHT_SEND);
    var e: EpId := EndpointCap(Cur(k), k.frame.a0, RIGHT_SEND).id;
    assert EpOk(k, e);
    var k1 := k.(kmsg := Overlay(k.kmsg, UserBytes(mem, k.frame.a1, k.frame.a2)));
    mid := SaveCurrent(SetEp(k1, e, SenderWaiting(k.current, k.frame.a2)), Blocked);
    assert ParkedAs(mid.eps[e], k.current);
  }

  lemma RecvDecides(k: Kernel) returns (mid: Kernel)
    requires Inv(k) && k.status == Live && IpcRecv(k).tasks[k.current].state != Running
    ensures IpcRecv(k) == Reschedule(mid) && mid.status == Live && mid.current == k.current
    ensures forall t: Tid :: t != k.current ==> mid.tasks[t] == k.tasks[t]
    ensures mid.tasks[k.current].state == Blocked && mid.tasks[k.current].prio == Cur(k).prio
    ensures mid.tasks[k.current].frame == k.frame && exists e: EpId :: ParkedAs(mid.eps[e], k.current)
  {
    hide Reschedule, BestOf;
    CurrentCaps(k);
    GrantedExists(Cur(k), k.frame.a0, RIGHT_RECV);
    var e: EpId := EndpointCap(Cur(k), k.frame.a0, RIGHT_RECV).id;
    assert EpOk(k, e);
    mid := SaveCurrent(SetEp(k, e, ReceiverWaiting(k.current, k.frame.a1, k.frame.a2)), Blocked);
    assert ParkedAs(mid.eps[e], k.current);
  }

  /** The remaining syscalls leave the caller running. */
  lemma OthersKeepRunning(k: Kernel, num: nat, mem: nat -> byte, result: int)
    requires Inv(k) && k.status == Live && k.miss == 0
    requires num !in {SYS_YIELD, SYS_EXIT, SYS_SEND, SYS_RECV, SYS_TASK_KILL}
    ensures OnSyscall(k, num, mem, result).tasks[k.current].state == Running
  {
    hide SysTaskStart, SysTaskRestart, SysIrqRaise, HoldsCap;
    assert k.(miss := 0) == k;
    StartKeepsRunning(k);
    IrqKeepsRunning(k);
  }

  lemma StartKeepsRunning(k: Kernel)
    requires Inv(k) && k.status == Live
    ensures SysTaskStart(k).tasks[k.current].state == Running
    ensures SysTaskRestart(k).tasks[k.current].state == Running
  {
    hide HoldsCap, GrantedRoutes, ClearedEps;
  }

  lemma IrqKeepsRunning(k: Kernel)
    requires Inv(k) && k.status == Live
    ensures SysIrqRaise(k).tasks[k.current].state == Running
  {
    hide DeviceCap;
    assert EpOk(k, IrqEndpoint(0)) && EpOk(k, IrqEndpoint(1));
  }

  // ---- No Ready task of top priority is passed over for long ------------------

  /** `t` waits, and neither a Ready task nor the running one outranks it. */
  ghost predicate Waiting(k: Kernel, t: Tid) {
    && IsReady(k.tasks, t)
    && (forall u: Tid :: k.tasks[u].state in {Ready, Running} ==> k.tasks[u].prio <= k.tasks[t].prio)
  }

  /** The tasks a deciding event lets the scheduler choose from: those Ready before it are among them, unchanged. */
  lemma Chosen(k: Kernel, ev: Event) returns (mid: Tasks)
    requires Inv(k) && k.status == Live && Step(k, ev).status == Live
    requires if ev.TimerTick? then Step(k, ev).current != k.current else Decides(k, ev)
    ensures IsBest(mid, k.current, MAX_TASKS, Step(k, ev).current)
    ensures forall t: Tid :: t != k.current && IsReady(k.tasks, t) ==> mid[t] == k.tasks[t]
    ensures forall t: Tid :: mid[t].prio == k.tasks[t].prio == Step(k, ev).tasks[t].prio
  {
    hide Reschedule, Preempt, BestOf, IsBest;
    var k1 := k.(frame := ev.frame);
    CoreFrame(k, k1);
    match ev
    case TimerTick(_) =>
      var k2 := k1.(ticks := k1.ticks + 1, miss := k1.miss + 1);
      CoreFrame(k, k2);
      if k2.miss <= WATCHDOG_WINDOW {
        PreemptIsTop(k2);
        PreemptKeepsPrio(k2);
        mid := k.tasks;
      } else {
        mid := FaultChosen(k2);
      }
    case UserFault(_) => mid := FaultChosen(k1);
    case Syscall(num, _, mem, result) =>
      CoreFrame(k, k1.(miss := 0));
      var m := SyscallDecides(k1.(miss := 0), num, mem, result);
      RescheduleIsTop(m);
      RescheduleKeepsPrio(m);
      mid := m.tasks;
  }

  lemma RescheduleKeepsPrio(k: Kernel)
    ensures forall t: Tid :: Reschedule(k).tasks[t].prio == k.tasks[t].prio
  {
    hide BestOf;
  }

  lemma PreemptKeepsPrio(k: Kernel)
    ensures forall t: Tid :: Preempt(k).tasks[t].prio == k.tasks[t].prio
  {
    hide BestOf;
  }

  lemma FaultChosen(k: Kernel) returns (mid: Tasks)
    requires Inv(k) && k.status == Live && ContainFault(k).status == Live
    ensures IsBest(mid, k.current, MAX_TASKS, ContainFault(k).current)
    ensures forall t: Tid :: t != k.current && IsReady(k.tasks, t) ==> mid[t] == k.tasks[t]
    ensures forall t: Tid :: mid[t].prio == k.tasks[t].prio == ContainFault(k).tasks[t].prio
    ensures mid[k.current].state == Faulted
  {
    hide Reschedule, NotifyEndpoint, IsBest;
    FaultKeeps(k);
    var k1 := DropIrqs(SetState(k, k.current, Faulted), k.current);
    NotifyKeeps(k1, EP_FAULT, FAULT_CODE_WATCHDOG);
    NotifyWakesBlocked(k1, EP_FAULT, FAULT_CODE_WATCHDOG);
    var k2 := NotifyEndpoint(k1, EP_FAULT, FAULT_CODE_WATCHDOG);
    NotifyKeeps(k2, EP_EVENT, FAULT_CODE_WATCHDOG);
    NotifyWakesBlocked(k2, EP_EVENT, FAULT_CODE_WATCHDOG);
    var k3 := NotifyEndpoint(k2, EP_EVENT, FAULT_CODE_WATCHDOG);
    RescheduleIsTop(k3);
    RescheduleKeepsPrio(k3);
    mid := k3.tasks;
  }

  lemma NotifyWakesBlocked(k: Kernel, e: EpId, code: byte)
    requires Core(k)
    ensures forall t: Tid :: k.tasks[t].state != Blocked ==> NotifyEndpoint(k, e, code).tasks[t] == k.tasks[t]
    ensures forall t: Tid :: k.tasks[t].state == Blocked ==> NotifyEndpoint(k, e, code).tasks[t].state in {Blocked, Ready}
    ensures forall t: Tid :: NotifyEndpoint(k, e, code).tasks[t].prio == k.tasks[t].prio
    ensures NotifyEndpoint(k, e, code).current == k.current
  {
    assert EpOk(k, e);
  }

  lemma DistancesAdd(c: Tid, b: Tid, t: Tid)
    requires Distance(c, b) < Distance(c, t)
    ensures Distance(b, t) == Distance(c, t) - Distance(c, b)
  {
  }

  /** A scheduling decision: the processor changes hands, or the running task offers or gives it up. */
  predicate Decision(k: Kernel, ev: Event) {
    (!ev.TimerTick? && Decides(k, ev)) || Step(k, ev).current != k.current
  }

  /** While `t` waits, every decision moves the processor strictly closer to it. */
  lemma DecisionComesCloser(k: Kernel, ev: Event, t: Tid)
    requires Inv(k) && k.status == Live && Step(k, ev).status == Live
    requires Waiting(k, t) && Waiting(Step(k, ev), t)
    ensures Distance(Step(k, ev).current, t) <= Distance(k.current, t)
    ensures Decision(k, ev) ==> Distance(Step(k, ev).current, t) < Distance(k.current, t)
  {
    hide Step, Core;
    StepKeeps(k, ev);
    var k' := Step(k, ev);
    if Decision(k, ev) {
      StillRunningIsCurrent(k, ev);
      var mid := Chosen(k, ev);
      assert IsReady(mid, t);
      assert k'.tasks[k'.current].state == Running;
      assert k'.tasks[k'.current].prio <= k'.tasks[t].prio;
      assert Distance(k.current, k'.current) <= Distance(k.current, t);
      assert k'.current != t;
      assert Slot(k.current, Distance(k.current, k'.current)) == k'.current;
      assert Slot(k.current, Distance(k.current, t)) == t;
      DistancesAdd(k.current, k'.current, t);
    }
  }

  lemma StillRunningIsCurrent(k: Kernel, ev: Event)
    requires Inv(k) && k.status == Live && Step(k, ev).status == Live && Inv(Step(k, ev))
    ensures Step(k, ev).current != k.current ==> Step(k, ev).tasks[k.current].state != Running
  {
    hide Step;
    assert TaskOk(Step(k, ev), k.current);
  }

  /** `t` waits in every state of the run, the first and the last included. */
  ghost predicate WaitsThroughout(k: Kernel, evs: seq<Event>, t: Tid)
    decreases |evs|
  {
    k.status == Live && Waiting(k, t) && (evs == [] || WaitsThroughout(Step(k, evs[0]), evs[1..], t))
  }

  function Decisions(k: Kernel, evs: seq<Event>): nat
    decreases |evs|
  {
    if evs == [] then 0
    else (if Decision(k, evs[0]) then 1 else 0) + Decisions(Step(k, evs[0]), evs[1..])
  }

  /**
   No starvation among equals: a task that stays Ready and is never outranked is
   passed over by fewer than MAX_TASKS decisions, in any run whatsoever.
   */
  lemma {:induction false} ChosenInTime(k: Kernel, evs: seq<Event>, t: Tid)
    requires Inv(k) && WaitsThroughout(k, evs, t)
    ensures Decisions(k, evs) < Distance(k.current, t) <= MAX_TASKS
    decreases |evs|
  {
    hide Step, Decision, Inv, Waiting;
    if evs != [] {
      StepKeeps(k, evs[0]);
      WaitsNow(Step(k, evs[0]), evs[1..], t);
      DecisionComesCloser(k, evs[0], t);
      ChosenInTime(Step(k, evs[0]), evs[1..], t);
    }
  }

  lemma WaitsNow(k: Kernel, evs: seq<Event>, t: Tid)
    requires WaitsThroughout(k, evs, t)
    ensures k.status == Live && Waiting(k, t)
  {
  }

  // ---- How long the timer alone can run -------------------------------------

  predicate Alive(s: RtState) { s in {Ready, Running, Blocked} }

  function LiveTasks(k: Kernel): set<nat> { set t: nat | t < MAX_TASKS && Alive(k.tasks[t].state) }

  /** A bound on the ticks left: one to preempt if the running task is outranked, then five per live task. */
  ghost function TicksLeft(k: Kernel): int {
    if Topmost(k) then 5 * |LiveTasks(k)| - k.miss else 5 * |LiveTasks(k)| + 1
  }

  lemma RescheduleKeepsLive(k: Kernel)
    requires NoneRunning(k)
    ensures LiveTasks(Reschedule(k)) == LiveTasks(k)
  {
    hide BestOf;
    SelectHighestIsBest(k.tasks, k.current);
    var k' := Reschedule(k);
    assert forall t: Tid :: Alive(k'.tasks[t].state) <==> Alive(k.tasks[t].state);
  }

  lemma FaultLosesOne(k: Kernel)
    requires Inv(k) && k.status == Live
    ensures LiveTasks(ContainFault(k)) == LiveTasks(k) - {k.current}
    ensures k.current in LiveTasks(k)
  {
    hide Reschedule, NotifyEndpoint;
    FaultKeeps(k);
    var k1 := DropIrqs(SetState(k, k.current, Faulted), k.current);
    NotifyKeeps(k1, EP_FAULT, FAULT_CODE_WATCHDOG);
    NotifyWakesBlocked(k1, EP_FAULT, FAULT_CODE_WATCHDOG);
    var k2 := NotifyEndpoint(k1, EP_FAULT, FAULT_CODE_WATCHDOG);
    NotifyKeeps(k2, EP_EVENT, FAULT_CODE_WATCHDOG);
    NotifyWakesBlocked(k2, EP_EVENT, FAULT_CODE_WATCHDOG);
    var k3 := NotifyEndpoint(k2, EP_EVENT, FAULT_CODE_WATCHDOG);
    RescheduleKeepsLive(k3);
    assert LiveTasks(k1) == LiveTasks(k) - {k.current};
    assert LiveTasks(k2) == LiveTasks(k1);
    assert LiveTasks(k3) == LiveTasks(k2);
  }

  lemma PreemptKeepsLive(k: Kernel)
    requires k.status == Live && Cur(k).state == Running
    ensures LiveTasks(Preempt(k)) == LiveTasks(k)
  {
    hide BestOf;
    SelectHighestIsBest(k.tasks, k.current);
    var k' := Preempt(k);
    assert forall t: Tid :: Alive(k'.tasks[t].state) <==> Alive(k.tasks[t].state);
  }

  /**
   Each tick faults the running task, or hands over to one of strictly higher
   priority, or uses up one more miss of the window; nothing else.
   */
  lemma TickProgress(k: Kernel, frame: TrapFrame)
    requires Inv(k) && k.status == Live && k.miss <= WATCHDOG_WINDOW
    requires Step(k, TimerTick(frame)).status == Live
    ensures var k' := Step(k, TimerTick(frame));
            && Topmost(k') && k'.miss <= WATCHDOG_WINDOW
            && (|| (LiveTasks(k') == LiveTasks(k) - {k.current} && k.current in LiveTasks(k) && k'.miss == 0
                    && k.miss == WATCHDOG_WINDOW)
                || (LiveTasks(k') == LiveTasks(k) && Cur(k').prio > Cur(k).prio && !Topmost(k) && k'.miss == 0)
                || (LiveTasks(k') == LiveTasks(k) && k'.current == k.current && Topmost(k) && k'.miss == k.miss + 1))
  {
    hide Preempt, ContainFault, LiveTasks, Topmost;
    var k1 := k.(frame := frame);
    var k2 := k1.(ticks := k1.ticks + 1, miss := k1.miss + 1);
    CoreFrame(k, k2);
    SameTop(k, k2);
    if k2.miss <= WATCHDOG_WINDOW {
      PreemptIsTop(k2);
      PreemptKeepsLive(k2);
    } else {
      FaultIsReschedule(k2);
      FaultLosesOne(k2);
    }
  }

  lemma SameTop(k: Kernel, k': Kernel)
    requires k'.tasks == k.tasks && k'.current == k.current
    ensures Topmost(k') <==> Topmost(k)
    ensures LiveTasks(k') == LiveTasks(k)
  {
  }

  /** The lexicographic measure (live tasks, 255 - running priority, window - misses) strictly decreases. */
  lemma TickDecreasesLexicographically(k: Kernel, frame: TrapFrame)
    requires Inv(k) && k.status == Live && k.miss <= WATCHDOG_WINDOW
    requires Step(k, TimerTick(frame)).status == Live
    ensures var k' := Step(k, TimerTick(frame));
            var (live, live') := (|LiveTasks(k)|, |LiveTasks(k')|);
            live' < live
            || (live' == live && 255 - Cur(k').prio < 255 - Cur(k).prio)
            || (live' == live && Cur(k').prio == Cur(k).prio
                && WATCHDOG_WINDOW - k'.miss < WATCHDOG_WINDOW - k.miss)
  {
    hide Step, LiveTasks;
    TickProgress(k, frame);
    TickKeepsPrio(k, frame);
  }

  lemma TickKeepsPrio(k: Kernel, frame: TrapFrame)
    requires Inv(k) && k.status == Live && Step(k, TimerTick(frame)).status == Live
    ensures forall t: Tid :: Step(k, TimerTick(frame)).tasks[t].prio == k.tasks[t].prio
  {
    hide Preempt, ContainFault;
    var k1 := k.(frame := frame);
    var k2 := k1.(ticks := k1.ticks + 1, miss := k1.miss + 1);
    CoreFrame(k, k2);
    if k2.miss <= WATCHDOG_WINDOW {
      PreemptKeepsPrio(k2);
    } else {
      var _ := FaultChosen(k2);
    }
  }

  /**
   The timer alone: from a state with `live` live tasks, ticks with nothing in
   between leave the machine running for at most 5 * live of them; one more and it
   has halted idle.
   */
  lemma {:induction false} TimerBound(k: Kernel, evs: seq<Event>)
    requires Inv(k) && k.status == Live && k.miss <= WATCHDOG_WINDOW
    requires forall i | 0 <= i < |evs| :: evs[i].TimerTick?
    ensures Run(k, evs).status == Live ==> |evs| + 1 <= TicksLeft(k) <= 5 * |LiveTasks(k)| + 1
    decreases |evs|
  {
    hide Step, LiveTasks, Topmost, Inv;
    CurrentIsLive(k);
    if evs != [] {
      StepKeeps(k, evs[0]);
      if Step(k, evs[0]).status == Live {
        TickProgress(k, evs[0].frame);
        TimerBound(Step(k, evs[0]), evs[1..]);
      } else {
        HaltStays(Step(k, evs[0]), evs[1..]);
      }
    }
  }

  lemma CurrentIsLive(k: Kernel)
    requires Inv(k) && k.status == Live
    ensures |LiveTasks(k)| >= 1
  {
    assert k.current in LiveTasks(k);
  }

  lemma {:induction false} HaltStays(k: Kernel, evs: seq<Event>)
    requires k.status != Live
    ensures Run(k, evs) == k
    decreases |evs|
  {
    if evs != [] {
      HaltStays(k, evs[1..]);
    }
  }

  lemma SyscallMiss(k: Kernel, num: nat, mem: nat -> byte, result: int)
    ensures OnSyscall(k, num, mem, result).miss == 0
  {
    hide BestOf, HoldsCap, EndpointCap, DeviceCap, GrantedRoutes, ClearedEps, InReadableWindow, ValidUserBuf, Overlay, Dead,
      IrqPendingFor, DroppedRoutes;
  }

  /** The miss count never exceeds the window while the machine runs. */
  lemma {:induction false} MissBounded(k: Kernel, evs: seq<Event>)
    requires Inv(k) && (k.status == Live ==> k.miss <= WATCHDOG_WINDOW)
    ensures Run(k, evs).status == Live ==> Run(k, evs).miss <= WATCHDOG_WINDOW
    decreases |evs|
  {
    hide OnSyscall, Tick, ContainFault, Inv;
    if evs != [] && k.status == Live {
      StepKeeps(k, evs[0]);
      var k1 := k.(frame := evs[0].frame);
      match evs[0] {
        case Syscall(num, _, mem, result) => SyscallMiss(k1, num, mem, result);
        case TimerTick(_) => TickMiss(k1);
        case UserFault(_) => FaultIsReschedule(k1);
      }
      MissBounded(Step(k, evs[0]), evs[1..]);
    } else {
      HaltStaysIf(k, evs);
    }
  }

  lemma HaltStaysIf(k: Kernel, evs: seq<Event>)
    ensures k.status != Live ==> Run(k, evs) == k
  {
    if k.status != Live {
      HaltStays(k, evs);
    }
  }

  lemma TickMiss(k: Kernel)
    requires k.status == Live
    ensures Tick(k).status == Live ==> Tick(k).miss <= WATCHDOG_WINDOW
    ensures Tick(k).status in {Live, IdleHalt}
  {
    hide BestOf, NotifyEndpoint, DroppedRoutes;
    var k1 := k.(ticks := k.ticks + 1, miss := k.miss + 1);
    if k1.miss > WATCHDOG_WINDOW {
      var k2 := DropIrqs(SetState(k1, k1.current, Faulted), k1.current);
      NotifyKeepsStatus(k2, EP_FAULT, FAULT_CODE_WATCHDOG);
      NotifyKeepsStatus(NotifyEndpoint(k2, EP_FAULT, FAULT_CODE_WATCHDOG), EP_EVENT, FAULT_CODE_WATCHDOG);
    }
  }

  lemma {:induction false} TicksEndIdle(k: Kernel, evs: seq<Event>)
    requires k.status in {Live, IdleHalt}
    requires forall i | 0 <= i < |evs| :: evs[i].TimerTick?
    ensures Run(k, evs).status in {Live, IdleHalt}
    decreases |evs|
  {
    hide Tick;
    if evs != [] && k.status == Live {
      TickMiss(k.(frame := evs[0].frame));
      TicksEndIdle(Step(k, evs[0]), evs[1..]);
    } else {
      HaltStaysIf(k, evs);
    }
  }

  /**
   From any state a run from boot can reach, 5 * live + 1 ticks without a syscall or a
   fault in between halt the machine idle.
   */
  lemma TicksHaltTheMachine(k: Kernel, evs: seq<Event>, ticks: seq<Event>)
    requires Booted(k) && Run(k, evs).status == Live
    requires forall i | 0 <= i < |ticks| :: ticks[i].TimerTick?
    requires |ticks| > 5 * |LiveTasks(Run(k, evs))|
    ensures Run(Run(k, evs), ticks).status == IdleHalt
  {
    hide Run, LiveTasks, Inv;
    BootedInv(k);
    RunKeeps(k, evs);
    MissBounded(k, evs);
    TimerBound(Run(k, evs), ticks);
    TicksEndIdle(Run(k, evs), ticks);
  }
}
