/**
 The dispatcher as it runs: static tables updated in place by every handler.
 Each method is proved to take the state where the transition of the state
 machine takes it, so everything proved of runs holds of it.
 */
module Dispatcher {
  import opened Base
  import opened Dispatch

  class Machine {
    const tasks: array<Tcb>
    const eps: array<Ep>
    const kmsg: array<byte>
    const routes: array<IrqRoute>
    const cfg: Config
    var current: Tid
    var miss: nat
    var ticks: nat
    var delivered: nat
    var frame: TrapFrame
    var status: Status
    ghost var journal: seq<Note>

    ghost predicate Valid()
      reads this
    {
      && tasks.Length == MAX_TASKS && eps.Length == NUM_ENDPOINTS
      && kmsg.Length == IPC_MSG_MAX && routes.Length == NUM_DEVICES
      && tasks as object != eps as object && tasks as object != kmsg as object && tasks as object != routes as object
      && eps as object != kmsg as object && eps as object != routes as object && kmsg as object != routes as object
    }

    ghost function State(): Kernel
      requires Valid()
      reads this, tasks, eps, kmsg, routes
    {
      Kernel(tasks[..], eps[..], kmsg[..], routes[..], current, miss, ticks, delivered, frame, status, journal, cfg)
    }

    ghost function Repr(): set<object>
      reads this
    {
      {this, tasks, eps, kmsg, routes}
    }

    constructor (tasks: array<Tcb>, eps: array<Ep>, kmsg: array<byte>, routes: array<IrqRoute>, cfg: Config)
      requires tasks.Length == MAX_TASKS && eps.Length == NUM_ENDPOINTS
      requires kmsg.Length == IPC_MSG_MAX && routes.Length == NUM_DEVICES
      requires tasks as object != eps as object && tasks as object != kmsg as object && tasks as object != routes as object
      requires eps as object != kmsg as object && eps as object != routes as object && kmsg as object != routes as object
      ensures Valid()
      ensures State() == Kernel(tasks[..], eps[..], kmsg[..], routes[..], 0, 0, 0, 0, ZeroFrame(), Live, [], cfg)
    {
      this.tasks, this.eps, this.kmsg, this.routes, this.cfg := tasks, eps, kmsg, routes, cfg;
      current, miss, ticks, delivered := 0, 0, 0, 0;
      frame, status, journal := ZeroFrame(), Live, [];
    }

    method Return(value: int)
      requires Valid()
      modifies this`frame
      ensures State() == Dispatch.Return(old(State()), value)
    {
      frame := frame.(a0 := Word(value));
    }

    /** One pass over the slots, starting behind the current one. */
    method SelectHighest() returns (best: Option<Tid>)
      requires Valid()
      ensures best == Dispatch.SelectHighest(tasks[..], current)
    {
      best := None;
      for step := 1 to MAX_TASKS + 1
        invariant best == BestOf(tasks[..], current, step - 1)
      {
        var idx := Slot(current, step);
        if tasks[idx].state == Ready {
          if best.None? || tasks[idx].prio > tasks[best.value].prio {
            best := Some(idx);
          }
        }
      }
    }

    method ResumeTask(next: Tid)
      requires Valid()
      modifies Repr()
      ensures Valid() && State() == Resume(old(State()), next)
    {
      var tcb := tasks[next];
      current, miss, frame := next, 0, tcb.frame;
      tasks[next] := tcb.(state := Running, pending := None);
      if tcb.pending.Some? {
        delivered := delivered + 1;
        journal := journal + [Delivered(next, tcb.pending.value)];
        Return(|tcb.pending.value.data|);
      }
    }

    method Reschedule()
      requires Valid()
      modifies Repr()
      ensures Valid() && State() == Dispatch.Reschedule(old(State()))
    {
      var next := SelectHighest();
      if next.Some? {
        ResumeTask(next.value);
      } else {
        status := IdleHalt;
      }
    }

    /** Yield or exit. */
    method Switch(exiting: bool)
      requires Valid()
      modifies Repr()
      ensures Valid() && State() == if exiting then Exit(old(State())) else Yield(old(State()))
    {
      if exiting {
        tasks[current] := tasks[current].(state := Killed);
        assert State() == SetState(old(State()), current, Killed);
      } else {
        tasks[current] := tasks[current].(frame := frame, state := Ready);
        assert State() == SaveCurrent(old(State()), Ready);
      }
      Reschedule();
    }

    method BlockAndSwitch()
      requires Valid()
      modifies Repr()
      ensures Valid() && State() == Dispatch.BlockAndSwitch(old(State()))
    {
      tasks[current] := tasks[current].(frame := frame, state := Blocked);
      assert State() == SaveCurrent(old(State()), Blocked);
      Reschedule();
    }

    method Preempt()
      requires Valid()
      modifies Repr()
      ensures Valid() && State() == Dispatch.Preempt(old(State()))
    {
      var next := SelectHighest();
      if next.None? {
        return;
      }
      if next.value == current || tasks[next.value].prio <= tasks[current].prio {
        return;
      }
      tasks[current] := tasks[current].(frame := frame, state := Ready);
      assert State() == SaveCurrent(old(State()), Ready);
      ResumeTask(next.value);
    }

    method StageFor(t: Tid, msg: PendingMsg)
      requires Valid()
      modifies Repr()
      ensures Valid() && State() == Stage(old(State()), t, msg)
    {
      tasks[t] := tasks[t].(pending := Some(msg), state := Ready);
      journal := journal + [Staged(t, msg)];
    }

    method NotifyEndpoint(e: EpId, code: byte)
      requires Valid()
      modifies Repr()
      ensures Valid() && State() == Dispatch.NotifyEndpoint(old(State()), e, code)
    {
      var ep := eps[e];
      if ep.ReceiverWaiting? {
        if ep.cap >= 1 && ValidUserBuf(ep.dst, 1) {
          StageFor(ep.tid, PendingMsg(ep.dst, [code]));
        }
        eps[e] := Idle;
      }
    }

    /** Drop the pending events of every device routed to `t`. */
    method IrqDropForTask(t: Tid)
      requires Valid()
      modifies routes
      ensures State() == DropIrqs(old(State()), t)
    {
      var i := 0;
      while i < NUM_DEVICES
        invariant 0 <= i <= NUM_DEVICES
        invariant forall d | 0 <= d < NUM_DEVICES ::
                    routes[d] == if d < i then DroppedRoutes(old(routes[..]), t)[d] else old(routes[d])
        invariant tasks[..] == old(tasks[..]) && eps[..] == old(eps[..]) && kmsg[..] == old(kmsg[..])
      {
        if routes[i].receiver == t && routes[i].pending {
          routes[i] := routes[i].(pending := false);
        }
        i := i + 1;
      }
      assert routes[..] == DroppedRoutes(old(routes[..]), t);
    }

    method ContainFault()
      requires Valid()
      modifies Repr()
      ensures Valid() && State() == Dispatch.ContainFault(old(State()))
    {
      var cur := current;
      tasks[cur] := tasks[cur].(state := Faulted);
      assert State() == SetState(old(State()), cur, Faulted);
      IrqDropForTask(cur);
      NotifyEndpoint(EP_FAULT, FAULT_CODE_WATCHDOG);
      NotifyEndpoint(EP_EVENT, FAULT_CODE_WATCHDOG);
      Reschedule();
    }

    /** The watchdog half of a tick; true if it faulted the running task and switched. */
    method WatchdogTick() returns (fired: bool)
      requires Valid()
      modifies Repr()
      ensures Valid()
      ensures fired <==> old(miss) + 1 > WATCHDOG_WINDOW
      ensures var k := old(State()).(ticks := old(ticks) + 1, miss := old(miss) + 1);
              State() == if fired then Dispatch.ContainFault(k) else k
    {
      ticks, miss := ticks + 1, miss + 1;
      if miss <= WATCHDOG_WINDOW {
        return false;
      }
      ContainFault();
      return true;
    }

    method OnTimerInterrupt()
      requires Valid()
      modifies Repr()
      ensures Valid() && State() == Tick(old(State()))
    {
      hide Dispatch.ContainFault, Dispatch.Preempt;
      var fired := WatchdogTick();
      if !fired {
        Preempt();
      }
    }

    // ---- IPC ----------------------------------------------------------------

    method CopyFromUser(mem: nat -> byte, va: nat, len: nat)
      requires Valid() && len <= IPC_MSG_MAX
      modifies kmsg
      ensures State() == old(State()).(kmsg := Overlay(old(kmsg[..]), UserBytes(mem, va, len)))
    {
      var i := 0;
      while i < len
        invariant 0 <= i <= len
        invariant forall j | 0 <= j < IPC_MSG_MAX :: kmsg[j] == if j < i then mem(va + j) else old(kmsg[j])
        invariant tasks[..] == old(tasks[..]) && eps[..] == old(eps[..]) && routes[..] == old(routes[..])
      {
        kmsg[i] := mem(va + i);
        i := i + 1;
      }
      assert kmsg[..] == Overlay(old(kmsg[..]), UserBytes(mem, va, len));
    }

    method IpcSend(mem: nat -> byte)
      requires Valid()
      modifies Repr()
      ensures Valid() && State() == Dispatch.IpcSend(old(State()), mem)
    {
      var len := frame.a2;
      var check := EndpointCap(tasks[current], frame.a0, RIGHT_SEND);
      if !check.Granted? {
        Return(DenyCode(check));
        return;
      }
      if len > IPC_MSG_MAX {
        Return(ERR_MSG_TOO_LARGE);
        return;
      }
      if !InReadableWindow(cfg, frame.a1, len) {
        Return(ERR_INVALID_ARG);
        return;
      }
      CopyFromUser(mem, frame.a1, len);
      if check.id >= NUM_ENDPOINTS {
        status := Panicked;
        return;
      }
      var ep := eps[check.id];
      match ep {
        case ReceiverWaiting(tid, dst, cap) =>
          if len <= cap && ValidUserBuf(dst, len) {
            StageFor(tid, PendingMsg(dst, kmsg[..len]));
          } else {
            tasks[tid] := tasks[tid].(frame := tasks[tid].frame.(a0 := Word(ERR_MSG_TOO_LARGE)), state := Ready);
          }
          eps[check.id] := Idle;
          Return(len);
        case Idle =>
          eps[check.id] := SenderWaiting(current, len);
          BlockAndSwitch();
        case SenderWaiting(_, _) =>
          Return(ERR_INVALID_ARG);
      }
    }

    /** The first device routed to `e` with an event pending for `t`. */
    method IrqPendingFor(e: nat, t: Tid) returns (dev: Option<DevId>)
      requires Valid()
      ensures dev == Dispatch.IrqPendingFor(routes[..], e, t)
    {
      var i: nat := 0;
      while i < NUM_DEVICES
        invariant 0 <= i <= NUM_DEVICES
        invariant forall d: DevId | d < i :: !(IrqEndpoint(d) == e && routes[d].pending && routes[d].receiver == t)
      {
        if IrqEndpoint(i) == e {
          if routes[i].pending && routes[i].receiver == t {
            return Some(i);
          }
        }
        i := i + 1;
      }
      assert forall d: DevId :: !(IrqEndpoint(d) == e && routes[d].pending && routes[d].receiver == t);
      return None;
    }

    method IpcRecv()
      requires Valid()
      modifies Repr()
      ensures Valid() && State() == Dispatch.IpcRecv(old(State()))
    {
      var dst, cap := frame.a1, frame.a2;
      var check := EndpointCap(tasks[current], frame.a0, RIGHT_RECV);
      if !check.Granted? {
        Return(DenyCode(check));
        return;
      }
      var irq := IrqPendingFor(check.id, current);
      if irq.Some? {
        if cap < 1 || !ValidUserBuf(dst, 1) {
          Return(ERR_INVALID_ARG);
          return;
        }
        routes[irq.value] := IrqRoute(current, false);
        journal := journal + [IrqGiven(irq.value, current)];
        Return(1);
        return;
      }
      if check.id >= NUM_ENDPOINTS {
        status := Panicked;
        return;
      }
      var ep := eps[check.id];
      match ep {
        case SenderWaiting(tid, len) =>
          if len > cap || !ValidUserBuf(dst, len) {
            Return(ERR_INVALID_ARG);
            return;
          }
          journal := journal + [Copied(current, tid, PendingMsg(dst, kmsg[..len]))];
          tasks[tid] := tasks[tid].(state := Ready, frame := tasks[tid].frame.(a0 := Word(len)));
          eps[check.id] := Idle;
          Return(len);
        case Idle =>
          if cap > IPC_MSG_MAX || !ValidUserBuf(dst, cap) {
            Return(ERR_INVALID_ARG);
            return;
          }
          eps[check.id] := ReceiverWaiting(current, dst, cap);
          BlockAndSwitch();
        case ReceiverWaiting(_, _, _) =>
          Return(ERR_INVALID_ARG);
      }
    }

    // ---- IRQ events ---------------------------------------------------------

    method IrqRaise(dev: DevId)
      requires Valid()
      modifies Repr()
      ensures Valid() && State() == Dispatch.IrqRaise(old(State()), dev)
    {
      var route, e := routes[dev], IrqEndpoint(dev);
      if route.receiver >= MAX_TASKS || tasks[route.receiver].state in {Faulted, Killed, Empty} {
        routes[dev] := route.(pending := false);
        Return(ERR_NO_SLOT);
        return;
      }
      var ep := eps[e];
      if ep.ReceiverWaiting? {
        if ep.tid == route.receiver && ep.cap >= 1 && ValidUserBuf(ep.dst, 1) {
          StageFor(ep.tid, PendingMsg(ep.dst, [IRQ_EVENT_CODE]));
          journal := journal + [IrqGiven(dev, ep.tid)];
          eps[e] := Idle;
          Return(0);
          return;
        }
        Return(ERR_NO_SLOT);
        return;
      }
      routes[dev] := route.(pending := true);
      Return(IRQ_PENDING);
    }

    method SysIrqRaise()
      requires Valid()
      modifies Repr()
      ensures Valid() && State() == Dispatch.SysIrqRaise(old(State()))
    {
      var check := DeviceCap(tasks[current], frame.a0, DEV_RIGHT_DRIVER_CONTROL);
      if check.Granted? {
        IrqRaise(check.id);
      } else {
        Return(DenyCode(check));
      }
    }

    // ---- Task control -------------------------------------------------------

    method CapFind(t: Tid, otype: ObjectType, required: bv16) returns (found: bool)
      requires Valid()
      ensures found == HoldsCap(tasks[t], otype, required)
    {
      var i := 0;
      while i < CAPS_PER_TASK
        invariant 0 <= i <= CAPS_PER_TASK
        invariant forall j | 0 <= j < i ::
                    !(tasks[t].caps[j].Some? && tasks[t].caps[j].value.otype == otype && HasRights(tasks[t].caps[j].value, required))
      {
        var c := tasks[t].caps[i];
        if c.Some? && c.value.otype == otype && HasRights(c.value, required) {
          return true;
        }
        i := i + 1;
      }
      return false;
    }

    /** Clear every rendezvous wait of task `t`. */
    method EpClearForTask(t: Tid)
      requires Valid()
      modifies eps
      ensures State() == old(State()).(eps := ClearedEps(old(eps[..]), t))
    {
      var id := 0;
      while id < NUM_ENDPOINTS
        invariant 0 <= id <= NUM_ENDPOINTS
        invariant forall e | 0 <= e < NUM_ENDPOINTS :: eps[e] == if e < id then ClearedEps(old(eps[..]), t)[e] else old(eps[e])
        invariant tasks[..] == old(tasks[..]) && kmsg[..] == old(kmsg[..]) && routes[..] == old(routes[..])
      {
        if !eps[id].Idle? && eps[id].tid == t {
          eps[id] := Idle;
        }
        id := id + 1;
      }
      assert eps[..] == ClearedEps(old(eps[..]), t);
    }

    method DiscardPending(t: Tid)
      requires Valid()
      modifies Repr()
      ensures Valid() && State() == Discard(old(State()), t)
    {
      if tasks[t].pending.Some? {
        journal := journal + [Dropped(t, tasks[t].pending.value)];
        tasks[t] := tasks[t].(pending := None);
      }
    }

    /** Re-arm a stopped task with its initial frame. */
    method RearmTask(t: Tid)
      requires Valid()
      modifies Repr()
      ensures Valid() && State() == Rearm(old(State()), t)
    {
      DiscardPending(t);
      var tcb := tasks[t];
      EpClearForTask(t);
      tasks[t] := tcb.(frame := NewUserFrame(cfg, tcb.entryVa, tcb.stackTopVa), state := Ready);
    }

    /** Register the starting task as receiver of each device its capabilities grant. */
    method AnnounceDeviceGrants(caps: CapTable, slot: Tid)
      requires Valid()
      modifies routes
      ensures State() == old(State()).(routes := GrantedRoutes(old(routes[..]), caps, slot, CAPS_PER_TASK))
    {
      var i := 0;
      while i < CAPS_PER_TASK
        invariant 0 <= i <= CAPS_PER_TASK
        invariant routes[..] == GrantedRoutes(old(routes[..]), caps, slot, i)
        invariant tasks[..] == old(tasks[..]) && kmsg[..] == old(kmsg[..]) && eps[..] == old(eps[..])
      {
        var c := caps[i];
        if c.Some? {
          if c.value.otype == DeviceObject && c.value.objectId < NUM_DEVICES {
            if c.value.rights & DEV_RIGHT_IRQ_RECEIVE != 0 {
              routes[c.value.objectId] := routes[c.value.objectId].(receiver := slot);
            }
          }
        }
        i := i + 1;
      }
    }

    method SysTaskStart()
      requires Valid()
      modifies Repr()
      ensures Valid() && State() == Dispatch.SysTaskStart(old(State()))
    {
      var allowed := CapFind(current, ControlObject, RIGHT_CONTROL);
      if !allowed {
        Return(ERR_INVALID_CAP);
        return;
      }
      if frame.a0 >= |cfg.services| {
        Return(ERR_INVALID_ARG);
        return;
      }
      var def := cfg.services[frame.a0];
      if def.slot >= MAX_TASKS {
        status := Panicked;
        return;
      }
      match tasks[def.slot].state {
        case Empty =>
          tasks[def.slot] := Tcb(Ready, def.prio, def.root, NewUserFrame(cfg, def.entryVa, def.stackTopVa), None,
                                 def.caps, def.entryVa, def.stackTopVa);
          AnnounceDeviceGrants(def.caps, def.slot);
          assert State() == FirstStart(old(State()), def);
        case Killed | Faulted =>
          RearmTask(def.slot);
        case _ =>
          Return(ERR_NO_SLOT);
          return;
      }
      Return(def.slot);
    }

    method SysTaskKill()
      requires Valid()
      modifies Repr()
      ensures Valid() && State() == Dispatch.SysTaskKill(old(State()))
    {
      var allowed := CapFind(current, ControlObject, RIGHT_CONTROL);
      if !allowed {
        Return(ERR_INVALID_CAP);
        return;
      }
      var slot := frame.a0;
      if slot >= MAX_TASKS || tasks[slot].state == Empty {
        Return(ERR_INVALID_ARG);
        return;
      }
      DiscardPending(slot);
      tasks[slot] := tasks[slot].(state := Killed);
      EpClearForTask(slot);
      IrqDropForTask(slot);
      assert State() == Kill(old(State()), slot);
      if slot == current {
        Reschedule();
      } else {
        Return(0);
      }
    }

    method SysTaskRestart()
      requires Valid()
      modifies Repr()
      ensures Valid() && State() == Dispatch.SysTaskRestart(old(State()))
    {
      var allowed := CapFind(current, ControlObject, RIGHT_CONTROL);
      if !allowed {
        Return(ERR_INVALID_CAP);
        return;
      }
      var slot := frame.a0;
      if slot >= MAX_TASKS || slot == current || tasks[slot].state == Empty || tasks[slot].entryVa == 0 {
        Return(ERR_INVALID_ARG);
        return;
      }
      RearmTask(slot);
      Return(0);
    }

    method SysShutdown()
      requires Valid()
      modifies Repr()
      ensures Valid() && State() == Dispatch.SysShutdown(old(State()))
    {
      var allowed := CapFind(current, ControlObject, RIGHT_CONTROL);
      if !allowed {
        Return(ERR_INVALID_CAP);
      } else {
        status := PoweredOff;
      }
    }

    // ---- The trap entry -----------------------------------------------------

    method OnSyscall(num: nat, mem: nat -> byte, result: int)
      requires Valid()
      modifies Repr()
      ensures Valid() && State() == Dispatch.OnSyscall(old(State()), num, mem, result)
    {
      miss := 0;
      if num == SYS_YIELD {
        Switch(false);
      } else if num == SYS_EXIT {
        Switch(true);
      } else if num == SYS_SEND {
        IpcSend(mem);
      } else if num == SYS_RECV {
        IpcRecv();
      } else if num == SYS_TASK_START {
        SysTaskStart();
      } else if num == SYS_TASK_KILL {
        SysTaskKill();
      } else if num == SYS_TASK_RESTART {
        SysTaskRestart();
      } else if num == SYS_SHUTDOWN {
        SysShutdown();
      } else if num == SYS_IRQ_RAISE {
        SysIrqRaise();
      } else {
        Return(result);
      }
    }

    /** One trap of the running task. After a halt nothing runs any more. */
    method OnTrap(ev: Event)
      requires Valid()
      modifies Repr()
      ensures Valid() && State() == Step(old(State()), ev)
    {
      if !status.Live? {
        return;
      }
      frame := ev.frame;
      match ev {
        case Syscall(num, _, mem, result) => OnSyscall(num, mem, result);
        case TimerTick(_) => OnTimerInterrupt();
        case UserFault(_) => ContainFault();
      }
    }
  }
}
