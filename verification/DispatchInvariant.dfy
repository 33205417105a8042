/** What every step of the dispatcher keeps. */
module DispatchInvariant {
  import opened Base
  import opened Dispatch

  // ---- The scheduling choice ------------------------------------------------

  /** Steps from `cur` round to `t`: 1 for the next slot, MAX_TASKS for `cur` itself. */
  function Distance(cur: Tid, t: Tid): (n: nat)
    ensures 1 <= n <= MAX_TASKS && Slot(cur, n) == t
  {
    if t > cur then t - cur else t + MAX_TASKS - cur
  }

  lemma DistanceOfSlot(cur: Tid, n: nat)
    requires 1 <= n <= MAX_TASKS
    ensures Distance(cur, Slot(cur, n)) == n
  {
  }

  predicate IsReady(tasks: Tasks, t: Tid) { tasks[t].state == Ready }

  /** `b` is the first of the highest-priority Ready tasks within `n` steps of `cur`. */
  predicate IsBest(tasks: Tasks, cur: Tid, n: nat, b: Tid) {
    && IsReady(tasks, b) && Distance(cur, b) <= n
    && (forall t: Tid :: IsReady(tasks, t) && Distance(cur, t) <= n ==>
          tasks[t].prio < tasks[b].prio || (tasks[t].prio == tasks[b].prio && Distance(cur, b) <= Distance(cur, t)))
  }

  lemma {:induction false} BestOfIsBest(tasks: Tasks, cur: Tid, n: nat)
    requires n <= MAX_TASKS
    ensures BestOf(tasks, cur, n).Some? ==> IsBest(tasks, cur, n, BestOf(tasks, cur, n).value)
    ensures BestOf(tasks, cur, n).None? ==> forall t: Tid :: IsReady(tasks, t) ==> Distance(cur, t) > n
  {
    if n > 0 {
      BestOfIsBest(tasks, cur, n - 1);
      DistanceOfSlot(cur, n);
      assert forall t: Tid :: Distance(cur, t) == n ==> t == Slot(cur, n);
    }
  }

  /**
   The selection of the dispatcher: a Ready task of the highest priority, the
   first such in cyclic order after the current one; nothing only if none is Ready.
   */
  lemma SelectHighestIsBest(tasks: Tasks, cur: Tid)
    ensures SelectHighest(tasks, cur).Some? ==> IsBest(tasks, cur, MAX_TASKS, SelectHighest(tasks, cur).value)
    ensures SelectHighest(tasks, cur).None? <==> forall t: Tid :: !IsReady(tasks, t)
  {
    BestOfIsBest(tasks, cur, MAX_TASKS);
  }

  // ---- The invariant --------------------------------------------------------

  /** A parked party is Blocked, and its buffer is a bounded one in the user data window. */
  predicate EpOk(k: Kernel, e: EpId) {
    match k.eps[e]
    case Idle => true
    case SenderWaiting(t, len) => k.tasks[t].state == Blocked && len <= IPC_MSG_MAX
    case ReceiverWaiting(t, dst, cap) => k.tasks[t].state == Blocked && ValidUserBuf(dst, cap)
  }

  /** A task is parked on one endpoint only. */
  ghost predicate Apart(k: Kernel) {
    forall e: EpId, f: EpId, t: Tid :: ParkedAs(k.eps[e], t) && ParkedAs(k.eps[f], t) ==> e == f
  }

  /** A task with a staged message is Ready and its buffer valid; only the current task may be Running. */
  predicate TaskOk(k: Kernel, t: Tid) {
    && (k.tasks[t].pending.Some? ==>
          k.tasks[t].state == Ready && ValidUserBuf(k.tasks[t].pending.value.dst, |k.tasks[t].pending.value.data|))
    && (k.tasks[t].state == Running ==> t == k.current)
  }

  /** A pending device event has a live registered receiver that is not parked where it would be delivered. */
  predicate RouteOk(k: Kernel, d: DevId) {
    k.routes[d].pending ==>
      && k.routes[d].receiver < MAX_TASKS
      && k.tasks[k.routes[d].receiver].state !in {Faulted, Empty}
      && !(k.eps[IrqEndpoint(d)].ReceiverWaiting? && k.eps[IrqEndpoint(d)].tid == k.routes[d].receiver)
  }

  /** Every endpoint capability names an endpoint that exists. */
  predicate CapsOk(caps: CapTable) {
    forall i | 0 <= i < CAPS_PER_TASK :: caps[i].Some? && caps[i].value.otype == EndpointObject ==>
      caps[i].value.objectId < NUM_ENDPOINTS
  }

  predicate ConfigOk(cfg: Config) {
    forall i | 0 <= i < |cfg.services| :: cfg.services[i].slot < MAX_TASKS && CapsOk(cfg.services[i].caps)
  }

  ghost predicate Core(k: Kernel) {
    && (forall e: EpId :: EpOk(k, e))
    && Apart(k)
    && (forall t: Tid :: TaskOk(k, t))
    && (forall d: DevId :: RouteOk(k, d))
    && (forall t: Tid :: CapsOk(k.tasks[t].caps))
    && ConfigOk(k.cfg)
  }

  ghost predicate Inv(k: Kernel) {
    && Core(k)
    && k.status != Panicked
    && (k.status.Live? ==> Cur(k).state == Running)
  }

  ghost predicate NoneRunning(k: Kernel) { forall t: Tid :: k.tasks[t].state != Running }

  /** Boot: task 0 runs, everything else is as registered, nothing is parked, staged or pending. */
  ghost predicate Booted(k: Kernel) {
    && k.status == Live && k.current == 0 && Cur(k).state == Running
    && (forall t: Tid | t != 0 :: k.tasks[t].state in {Empty, Ready})
    && (forall t: Tid :: k.tasks[t].pending == None && CapsOk(k.tasks[t].caps))
    && (forall e: EpId :: k.eps[e] == Idle)
    && (forall d: DevId :: k.routes[d] == IrqRoute(MAX_TASKS, false))
    && k.miss == 0 && k.delivered == 0 && k.journal == []
    && ConfigOk(k.cfg)
  }

  lemma BootedInv(k: Kernel)
    requires Booted(k)
    ensures Inv(k)
  {
  }

  // ---- Rescheduling ---------------------------------------------------------

  lemma ResumeKeeps(k: Kernel, next: Tid)
    requires Core(k) && NoneRunning(k) && k.status == Live && k.tasks[next].state == Ready
    ensures Inv(Resume(k, next))
  {
    var k' := Resume(k, next);
    assert forall t: Tid :: t != next ==> k'.tasks[t] == k.tasks[t];
    forall e: EpId
      ensures EpOk(k', e)
    {
      assert EpOk(k, e);
    }
    forall t: Tid
      ensures TaskOk(k', t)
    {
      assert TaskOk(k, t);
    }
    forall d: DevId
      ensures RouteOk(k', d)
    {
      assert RouteOk(k, d);
    }
  }

  lemma RescheduleKeeps(k: Kernel)
    requires Core(k) && NoneRunning(k) && k.status == Live
    ensures Inv(Reschedule(k))
  {
    SelectHighestIsBest(k.tasks, k.current);
    if SelectHighest(k.tasks, k.current).Some? {
      ResumeKeeps(k, SelectHighest(k.tasks, k.current).value);
    } else {
      CoreFrame(k, Reschedule(k));
    }
  }

  /** The invariant does not depend on counters, the live frame, the status or the journal. */
  lemma CoreFrame(k: Kernel, k': Kernel)
    requires Core(k)
    requires k'.tasks == k.tasks && k'.eps == k.eps && k'.routes == k.routes && k'.current == k.current && k'.cfg == k.cfg
    ensures Core(k')
  {
    forall e: EpId
      ensures EpOk(k', e)
    {
      assert EpOk(k, e);
    }
    forall t: Tid
      ensures TaskOk(k', t)
    {
      assert TaskOk(k, t);
    }
    forall d: DevId
      ensures RouteOk(k', d)
    {
      assert RouteOk(k, d);
    }
  }

  /** Stopping the running task, which is never parked, staged to or (unless Faulted) owed an event. */
  lemma StopCurrentKeeps(k: Kernel, k': Kernel, s: RtState)
    requires Core(k) && k.status == Live && Cur(k).state == Running && s !in {Running, Faulted, Empty}
    requires exists f: TrapFrame :: k' == SetTask(k, k.current, Cur(k).(frame := f, state := s))
    ensures Core(k') && NoneRunning(k')
  {
    assert forall t: Tid :: t != k.current ==> k'.tasks[t] == k.tasks[t];
    assert TaskOk(k, k.current);
    forall e: EpId
      ensures EpOk(k', e)
    {
      assert EpOk(k, e);
    }
    forall t: Tid
      ensures TaskOk(k', t) && k'.tasks[t].state != Running
    {
      assert TaskOk(k, t);
    }
    forall d: DevId
      ensures RouteOk(k', d)
    {
      assert RouteOk(k, d);
    }
  }

  lemma YieldKeeps(k: Kernel)
    requires Inv(k) && k.status == Live
    ensures Inv(Yield(k)) && Inv(Exit(k))
  {
    StopCurrentKeeps(k, SaveCurrent(k, Ready), Ready);
    RescheduleKeeps(SaveCurrent(k, Ready));
    assert SetState(k, k.current, Killed) == SetTask(k, k.current, Cur(k).(frame := Cur(k).frame, state := Killed));
    StopCurrentKeeps(k, SetState(k, k.current, Killed), Killed);
    RescheduleKeeps(SetState(k, k.current, Killed));
  }

  lemma PreemptKeeps(k: Kernel)
    requires Inv(k) && k.status == Live
    ensures Inv(Preempt(k))
  {
    SelectHighestIsBest(k.tasks, k.current);
    var sel := SelectHighest(k.tasks, k.current);
    if sel.Some? && sel.value != k.current {
      StopCurrentKeeps(k, SaveCurrent(k, Ready), Ready);
      ResumeKeeps(SaveCurrent(k, Ready), sel.value);
    }
  }

  // ---- Waking, parking, stopping --------------------------------------------

  /** Waking the party parked on `e`, with or without a message, keeps everything. */
  lemma WakeKeeps(k: Kernel, k': Kernel, e: EpId, tcb: Tcb)
    requires Core(k) && !k.eps[e].Idle?
    requires k'.eps == k.eps[e := Idle] && k'.tasks == k.tasks[k.eps[e].tid := tcb]
    requires k'.routes == k.routes && k'.current == k.current && k'.cfg == k.cfg
    requires tcb.state == Ready && tcb.caps == k.tasks[k.eps[e].tid].caps
    requires tcb.pending.Some? ==> ValidUserBuf(tcb.pending.value.dst, |tcb.pending.value.data|)
    ensures Core(k')
  {
    var tid := k.eps[e].tid;
    forall f: EpId
      ensures EpOk(k', f)
    {
      assert EpOk(k, f);
      assert ParkedAs(k.eps[e], tid);
      assert f != e ==> !ParkedAs(k.eps[f], tid);
    }
    forall f: EpId, g: EpId, t: Tid | ParkedAs(k'.eps[f], t) && ParkedAs(k'.eps[g], t)
      ensures f == g
    {
      assert ParkedAs(k.eps[f], t) && ParkedAs(k.eps[g], t);
    }
    forall t: Tid
      ensures TaskOk(k', t)
    {
      assert TaskOk(k, t);
    }
    forall d: DevId
      ensures RouteOk(k', d)
    {
      assert RouteOk(k, d);
    }
  }

  lemma UnparkKeeps(k: Kernel, e: EpId)
    requires Core(k)
    ensures Core(SetEp(k, e, Idle))
  {
    var k' := SetEp(k, e, Idle);
    forall f: EpId
      ensures EpOk(k', f)
    {
      assert EpOk(k, f);
    }
    forall f: EpId, g: EpId, t: Tid | ParkedAs(k'.eps[f], t) && ParkedAs(k'.eps[g], t)
      ensures f == g
    {
      assert ParkedAs(k.eps[f], t) && ParkedAs(k.eps[g], t);
    }
    forall t: Tid
      ensures TaskOk(k', t)
    {
      assert TaskOk(k, t);
    }
    forall d: DevId
      ensures RouteOk(k', d)
    {
      assert RouteOk(k, d);
    }
  }

  lemma NotifyKeeps(k: Kernel, e: EpId, code: byte)
    requires Core(k)
    ensures Core(NotifyEndpoint(k, e, code))
    ensures NoneRunning(k) ==> NoneRunning(NotifyEndpoint(k, e, code))
    ensures NotifyEndpoint(k, e, code).status == k.status
  {
    var k' := NotifyEndpoint(k, e, code);
    match k.eps[e]
    case ReceiverWaiting(tid, dst, cap) =>
      if cap >= 1 && ValidUserBuf(dst, 1) {
        WakeKeeps(k, k', e, k.tasks[tid].(pending := Some(PendingMsg(dst, [code])), state := Ready));
      } else {
        UnparkKeeps(k, e);
      }
    case _ =>
  }

  /** Marking the running task Faulted and dropping its device events. */
  lemma FaultKeeps(k: Kernel)
    requires Inv(k) && k.status == Live
    ensures Core(DropIrqs(SetState(k, k.current, Faulted), k.current))
    ensures NoneRunning(DropIrqs(SetState(k, k.current, Faulted), k.current))
  {
    var k' := DropIrqs(SetState(k, k.current, Faulted), k.current);
    assert TaskOk(k, k.current);
    forall f: EpId
      ensures EpOk(k', f)
    {
      assert EpOk(k, f);
    }
    forall t: Tid
      ensures TaskOk(k', t) && k'.tasks[t].state != Running
    {
      assert TaskOk(k, t);
    }
    forall d: DevId
      ensures RouteOk(k', d)
    {
      assert RouteOk(k, d);
    }
  }

  lemma ContainFaultKeeps(k: Kernel)
    requires Inv(k) && k.status == Live
    ensures Inv(ContainFault(k))
  {
    FaultKeeps(k);
    var k1 := DropIrqs(SetState(k, k.current, Faulted), k.current);
    NotifyKeeps(k1, EP_FAULT, FAULT_CODE_WATCHDOG);
    var k2 := NotifyEndpoint(k1, EP_FAULT, FAULT_CODE_WATCHDOG);
    NotifyKeeps(k2, EP_EVENT, FAULT_CODE_WATCHDOG);
    RescheduleKeeps(NotifyEndpoint(k2, EP_EVENT, FAULT_CODE_WATCHDOG));
  }

  lemma TickKeeps(k: Kernel)
    requires Inv(k) && k.status == Live
    ensures Inv(Tick(k))
  {
    hide Core, Preempt, ContainFault;
    var k1 := k.(ticks := k.ticks + 1, miss := k.miss + 1);
    CoreFrame(k, k1);
    if k1.miss <= WATCHDOG_WINDOW {
      PreemptKeeps(k1);
    } else {
      ContainFaultKeeps(k1);
    }
  }

  /** Parking the running task on an idle endpoint and switching away. */
  lemma ParkKeeps(k: Kernel, e: EpId, ep: Ep)
    requires Inv(k) && k.status == Live && k.eps[e].Idle? && ParkedAs(ep, k.current)
    requires ep.SenderWaiting? ==> ep.len <= IPC_MSG_MAX
    requires ep.ReceiverWaiting? ==> ValidUserBuf(ep.dst, ep.cap)
    requires ep.ReceiverWaiting? ==> IrqPendingFor(k.routes, e, k.current).None?
    ensures Inv(BlockAndSwitch(SetEp(k, e, ep)))
  {
    var k1 := SaveCurrent(SetEp(k, e, ep), Blocked);
    assert TaskOk(k, k.current);
    forall f: EpId
      ensures EpOk(k1, f)
      ensures f != e ==> !ParkedAs(k.eps[f], k.current)
    {
      assert EpOk(k, f);
    }
    forall f: EpId, g: EpId, t: Tid | ParkedAs(k1.eps[f], t) && ParkedAs(k1.eps[g], t)
      ensures f == g
    {
      assert f != e ==> ParkedAs(k.eps[f], t);
      assert g != e ==> ParkedAs(k.eps[g], t);
    }
    forall t: Tid
      ensures TaskOk(k1, t) && k1.tasks[t].state != Running
    {
      assert TaskOk(k, t);
    }
    forall d: DevId
      ensures RouteOk(k1, d)
    {
      assert RouteOk(k, d);
    }
    RescheduleKeeps(k1);
  }

  // ---- IPC and IRQ handlers -------------------------------------------------

  lemma GrantedExists(t: Tcb, index: nat, required: bv16)
    requires CapsOk(t.caps)
    ensures EndpointCap(t, index, required).Granted? ==> EndpointCap(t, index, required).id < NUM_ENDPOINTS
  {
  }

  lemma SendOnKeeps(k: Kernel, e: EpId, mem: nat -> byte)
    requires Inv(k) && k.status == Live && k.frame.a2 <= IPC_MSG_MAX
    ensures Inv(SendOn(k, e, mem))
  {
    var k' := SendOn(k, e, mem);
    var len := k.frame.a2;
    var k1 := k.(kmsg := Overlay(k.kmsg, UserBytes(mem, k.frame.a1, len)));
    CoreFrame(k, k1);
    assert EpOk(k, e);
    match k.eps[e]
    case ReceiverWaiting(tid, dst, cap) =>
      assert TaskOk(k, tid);
      WakeKeeps(k1, k', e, k'.tasks[tid]);
    case Idle => ParkKeeps(k1, e, SenderWaiting(k.current, len));
    case SenderWaiting(_, _) => CoreFrame(k, k');
  }

  lemma IpcSendKeeps(k: Kernel, mem: nat -> byte)
    requires Inv(k) && k.status == Live
    ensures Inv(IpcSend(k, mem))
  {
    hide Core, SendOn;
    var check := EndpointCap(Cur(k), k.frame.a0, RIGHT_SEND);
    if check.Granted? && k.frame.a2 <= IPC_MSG_MAX && InReadableWindow(k.cfg, k.frame.a1, k.frame.a2) {
      CurrentCaps(k);
      GrantedExists(Cur(k), k.frame.a0, RIGHT_SEND);
      SendOnKeeps(k, check.id, mem);
    } else {
      CoreFrame(k, IpcSend(k, mem));
    }
  }

  lemma CurrentCaps(k: Kernel)
    requires Core(k)
    ensures CapsOk(Cur(k).caps)
  {
  }

  lemma RouteClearedKeeps(k: Kernel, k': Kernel, d: DevId, r: IrqRoute)
    requires Core(k) && !r.pending
    requires k'.routes == k.routes[d := r]
    requires k'.tasks == k.tasks && k'.eps == k.eps && k'.current == k.current && k'.cfg == k.cfg
    ensures Core(k')
  {
    forall e: EpId
      ensures EpOk(k', e)
    {
      assert EpOk(k, e);
    }
    forall t: Tid
      ensures TaskOk(k', t)
    {
      assert TaskOk(k, t);
    }
    forall c: DevId
      ensures RouteOk(k', c)
    {
      assert RouteOk(k, c);
    }
  }

  lemma IpcRecvKeeps(k: Kernel)
    requires Inv(k) && k.status == Live
    ensures Inv(IpcRecv(k))
  {
    var k' := IpcRecv(k);
    var check := EndpointCap(Cur(k), k.frame.a0, RIGHT_RECV);
    if check.Granted? {
      GrantedExists(Cur(k), k.frame.a0, RIGHT_RECV);
      var e: EpId := check.id;
      var irq := IrqPendingFor(k.routes, e, k.current);
      if irq.Some? {
        if k'.routes == k.routes {
          CoreFrame(k, k');
        } else {
          RouteClearedKeeps(k, k', irq.value, IrqRoute(k.current, false));
        }
      } else {
        RecvOnKeeps(k, e);
      }
    } else {
      CoreFrame(k, k');
    }
  }

  lemma RecvOnKeeps(k: Kernel, e: EpId)
    requires Inv(k) && k.status == Live && IrqPendingFor(k.routes, e, k.current).None?
    ensures Inv(RecvOn(k, e))
  {
    var k' := RecvOn(k, e);
    var dst, cap := k.frame.a1, k.frame.a2;
    assert EpOk(k, e);
    match k.eps[e]
    case SenderWaiting(tid, len) =>
      if len > cap || !ValidUserBuf(dst, len) {
        CoreFrame(k, k');
      } else {
        assert TaskOk(k, tid);
        WakeKeeps(k, k', e, k'.tasks[tid]);
      }
    case Idle =>
      if cap > IPC_MSG_MAX || !ValidUserBuf(dst, cap) {
        CoreFrame(k, k');
      } else {
        ParkKeeps(k, e, ReceiverWaiting(k.current, dst, cap));
      }
    case ReceiverWaiting(_, _, _) => CoreFrame(k, k');
  }

  lemma IrqRaiseKeeps(k: Kernel, dev: DevId)
    requires Inv(k) && k.status == Live
    ensures Inv(IrqRaise(k, dev))
  {
    var k' := IrqRaise(k, dev);
    var route, e := k.routes[dev], IrqEndpoint(dev);
    assert EpOk(k, e);
    if Dead(k.tasks, route.receiver) {
      RouteClearedKeeps(k, k', dev, route.(pending := false));
    } else {
      match k.eps[e]
      case ReceiverWaiting(tid, dst, cap) =>
        if tid == route.receiver && cap >= 1 && ValidUserBuf(dst, 1) {
          WakeKeeps(k, k', e, k'.tasks[tid]);
        } else {
          CoreFrame(k, k');
        }
      case _ =>
        RoutePendingKeeps(k, k', dev);
    }
  }

  lemma RoutePendingKeeps(k: Kernel, k': Kernel, d: DevId)
    requires Core(k) && !Dead(k.tasks, k.routes[d].receiver) && !k.eps[IrqEndpoint(d)].ReceiverWaiting?
    requires k'.routes == k.routes[d := k.routes[d].(pending := true)]
    requires k'.tasks == k.tasks && k'.eps == k.eps && k'.current == k.current && k'.cfg == k.cfg
    ensures Core(k')
  {
    forall e: EpId
      ensures EpOk(k', e)
    {
      assert EpOk(k, e);
    }
    forall t: Tid
      ensures TaskOk(k', t)
    {
      assert TaskOk(k, t);
    }
    forall c: DevId
      ensures RouteOk(k', c)
    {
      assert RouteOk(k, c);
    }
  }

  // ---- Task control ---------------------------------------------------------

  /** Taking a task off its endpoints, with nothing staged, into a state that owes it no event. */
  lemma ResetKeeps(k: Kernel, k': Kernel, t: Tid, tcb: Tcb)
    requires Core(k) && (t == k.current || tcb.state != Running)
    requires k'.tasks == k.tasks[t := tcb] && k'.eps == ClearedEps(k.eps, t)
    requires k'.current == k.current && k'.cfg == k.cfg
    requires tcb.pending.None? && CapsOk(tcb.caps) && tcb.state in {Ready, Killed}
    requires k'.routes == k.routes || k'.routes == DroppedRoutes(k.routes, t)
    ensures Core(k')
    ensures forall e: EpId :: !ParkedAs(k'.eps[e], t)
  {
    forall e: EpId
      ensures EpOk(k', e) && !ParkedAs(k'.eps[e], t)
    {
      assert EpOk(k, e);
    }
    forall f: EpId, g: EpId, u: Tid | ParkedAs(k'.eps[f], u) && ParkedAs(k'.eps[g], u)
      ensures f == g
    {
      assert ParkedAs(k.eps[f], u) && ParkedAs(k.eps[g], u);
    }
    forall u: Tid
      ensures TaskOk(k', u)
    {
      assert TaskOk(k, u);
    }
    forall d: DevId
      ensures RouteOk(k', d)
    {
      assert RouteOk(k, d);
    }
  }

  lemma RearmKeeps(k: Kernel, t: Tid)
    requires Inv(k) && k.status == Live && t != k.current
    ensures Inv(Rearm(k, t))
  {
    ResetKeeps(k, Rearm(k, t), t, Rearm(k, t).tasks[t]);
  }

  lemma {:induction false} GrantedRoutesOnlyReceivers(routes: Routes, caps: CapTable, slot: Tid, n: nat, d: DevId)
    requires n <= CAPS_PER_TASK
    ensures GrantedRoutes(routes, caps, slot, n)[d].pending == routes[d].pending
    ensures GrantedRoutes(routes, caps, slot, n)[d].receiver in {slot, routes[d].receiver}
  {
    if n > 0 {
      GrantedRoutesOnlyReceivers(routes, caps, slot, n - 1, d);
    }
  }

  lemma FirstStartKeeps(k: Kernel, def: ServiceDef)
    requires Inv(k) && k.status == Live && def.slot < MAX_TASKS && CapsOk(def.caps)
    requires k.tasks[def.slot].state == Empty
    ensures Inv(FirstStart(k, def))
  {
    var k' := FirstStart(k, def);
    forall e: EpId
      ensures EpOk(k', e)
    {
      assert EpOk(k, e);
    }
    forall t: Tid
      ensures TaskOk(k', t)
    {
      assert TaskOk(k, t);
    }
    forall d: DevId
      ensures RouteOk(k', d)
    {
      assert RouteOk(k, d);
      assert EpOk(k, IrqEndpoint(d));
      GrantedRoutesOnlyReceivers(k.routes, def.caps, def.slot, CAPS_PER_TASK, d);
    }
  }

  lemma TaskControlKeeps(k: Kernel)
    requires Inv(k) && k.status == Live
    ensures Inv(SysTaskStart(k)) && Inv(SysTaskKill(k)) && Inv(SysTaskRestart(k)) && Inv(SysShutdown(k))
  {
    StartKeeps(k);
    KillKeeps(k);
    RestartKeeps(k);
    CoreFrame(k, SysShutdown(k));
  }

  lemma ReturnKeeps(k: Kernel, v: int)
    requires Inv(k)
    ensures Inv(Return(k, v))
  {
    CoreFrame(k, Return(k, v));
  }

  lemma StartKeeps(k: Kernel)
    requires Inv(k) && k.status == Live
    ensures Inv(SysTaskStart(k))
  {
    if Controls(Cur(k)) && k.frame.a0 < |k.cfg.services| {
      var def := k.cfg.services[k.frame.a0];
      match k.tasks[def.slot].state
      case Empty =>
        FirstStartKeeps(k, def);
        ReturnKeeps(FirstStart(k, def), def.slot);
      case Killed | Faulted =>
        RearmKeeps(k, def.slot);
        ReturnKeeps(Rearm(k, def.slot), def.slot);
      case _ => ReturnKeeps(k, ERR_NO_SLOT);
    } else {
      CoreFrame(k, SysTaskStart(k));
    }
  }

  lemma KillKeeps(k: Kernel)
    requires Inv(k) && k.status == Live
    ensures Inv(SysTaskKill(k))
  {
    var slot := k.frame.a0;
    if Controls(Cur(k)) && slot < MAX_TASKS && k.tasks[slot].state != Empty {
      var k1 := Kill(k, slot);
      ResetKeeps(k, k1, slot, k1.tasks[slot]);
      if slot == k.current {
        forall t: Tid
          ensures k1.tasks[t].state != Running
        {
          assert TaskOk(k, t);
        }
        RescheduleKeeps(k1);
      } else {
        ReturnKeeps(k1, 0);
      }
    } else {
      CoreFrame(k, SysTaskKill(k));
    }
  }

  lemma RestartKeeps(k: Kernel)
    requires Inv(k) && k.status == Live
    ensures Inv(SysTaskRestart(k))
  {
    var slot := k.frame.a0;
    if Controls(Cur(k)) && slot < MAX_TASKS && slot != k.current
       && k.tasks[slot].state != Empty && k.tasks[slot].entryVa != 0 {
      RearmKeeps(k, slot);
      ReturnKeeps(Rearm(k, slot), 0);
    } else {
      CoreFrame(k, SysTaskRestart(k));
    }
  }

  lemma SysIrqRaiseKeeps(k: Kernel)
    requires Inv(k) && k.status == Live
    ensures Inv(SysIrqRaise(k))
  {
    var check := DeviceCap(Cur(k), k.frame.a0, DEV_RIGHT_DRIVER_CONTROL);
    if check.Granted? {
      IrqRaiseKeeps(k, check.id);
    } else {
      ReturnKeeps(k, DenyCode(check));
    }
  }

  lemma OnSyscallKeeps(k: Kernel, num: nat, mem: nat -> byte, result: int)
    requires Inv(k) && k.status == Live
    ensures Inv(OnSyscall(k, num, mem, result))
  {
    var k1 := k.(miss := 0);
    CoreFrame(k, k1);
    if num in {SYS_YIELD, SYS_EXIT} {
      YieldKeeps(k1);
    } else if num == SYS_SEND {
      IpcSendKeeps(k1, mem);
    } else if num == SYS_RECV {
      IpcRecvKeeps(k1);
    } else if num in {SYS_TASK_START, SYS_TASK_KILL, SYS_TASK_RESTART, SYS_SHUTDOWN} {
      TaskControlKeeps(k1);
    } else if num == SYS_IRQ_RAISE {
      SysIrqRaiseKeeps(k1);
    } else {
      ReturnKeeps(k1, result);
    }
  }

  lemma StepKeeps(k: Kernel, ev: Event)
    requires Inv(k)
    ensures Inv(Step(k, ev))
  {
    if k.status.Live? {
      var k1 := k.(frame := ev.frame);
      CoreFrame(k, k1);
      match ev
      case Syscall(num, _, mem, result) => OnSyscallKeeps(k1, num, mem, result);
      case TimerTick(_) => TickKeeps(k1);
      case UserFault(_) => ContainFaultKeeps(k1);
    }
  }

  lemma {:induction false} RunKeeps(k: Kernel, evs: seq<Event>)
    requires Inv(k)
    ensures Inv(Run(k, evs))
    decreases |evs|
  {
    if evs != [] {
      StepKeeps(k, evs[0]);
      RunKeeps(Step(k, evs[0]), evs[1..]);
    }
  }

  /** The dispatcher's state guarantees, spelled out. */
  ghost predicate Guaranteed(r: Kernel) {
    && r.status != Panicked
    && (r.status.Live? ==> forall t: Tid :: r.tasks[t].state == Running <==> t == r.current)
    && (forall e: EpId, t: Tid :: ParkedAs(r.eps[e], t) ==> r.tasks[t].state == Blocked)
    && (forall e: EpId, f: EpId, t: Tid :: ParkedAs(r.eps[e], t) && ParkedAs(r.eps[f], t) ==> e == f)
    && (forall e: EpId :: r.eps[e].ReceiverWaiting? ==> ValidUserBuf(r.eps[e].dst, r.eps[e].cap))
    && (forall t: Tid :: r.tasks[t].pending.Some? ==>
          r.tasks[t].state == Ready
          && ValidUserBuf(r.tasks[t].pending.value.dst, |r.tasks[t].pending.value.data|))
    && (forall d: DevId :: r.routes[d].pending ==>
          && r.routes[d].receiver < MAX_TASKS
          && r.tasks[r.routes[d].receiver].state != Faulted
          && !(r.eps[IrqEndpoint(d)].ReceiverWaiting? && r.eps[IrqEndpoint(d)].tid == r.routes[d].receiver))
  }

  lemma InvIsGuarantee(r: Kernel)
    requires Inv(r)
    ensures Guaranteed(r)
  {
    forall t: Tid
      ensures r.status.Live? ==> (r.tasks[t].state == Running <==> t == r.current)
      ensures r.tasks[t].pending.Some? ==>
                r.tasks[t].state == Ready
                && ValidUserBuf(r.tasks[t].pending.value.dst, |r.tasks[t].pending.value.data|)
    {
      assert TaskOk(r, t);
    }
    forall e: EpId
      ensures r.eps[e].ReceiverWaiting? ==> ValidUserBuf(r.eps[e].dst, r.eps[e].cap)
      ensures forall t: Tid :: ParkedAs(r.eps[e], t) ==> r.tasks[t].state == Blocked
    {
      assert EpOk(r, e);
    }
    forall d: DevId | r.routes[d].pending
      ensures r.routes[d].receiver < MAX_TASKS
      ensures r.tasks[r.routes[d].receiver].state != Faulted
      ensures !(r.eps[IrqEndpoint(d)].ReceiverWaiting? && r.eps[IrqEndpoint(d)].tid == r.routes[d].receiver)
    {
      assert RouteOk(r, d);
    }
  }

  /**
   The dispatcher invariant, for every run from boot. Until the machine stops,
   exactly one task is Running and it is the current one; a parked party is
   Blocked and parked on one endpoint only; a task with a staged message is
   Ready; every buffer waited on or staged for lies in the user data window and
   is at most 128 bytes; a pending device event has a registered receiver that
   is neither Faulted nor parked where it would be delivered; and no index
   panic is ever reached.
   */
  lemma DispatcherInvariant(k: Kernel, evs: seq<Event>)
    requires Booted(k)
    ensures Guaranteed(Run(k, evs))
  {
    BootedInv(k);
    RunKeeps(k, evs);
    InvIsGuarantee(Run(k, evs));
  }
}
