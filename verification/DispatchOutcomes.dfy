/**
 What each system call, tick and fault leaves behind, in the numbers of the
 interface: call numbers, error codes, rights, windows and endpoints are written
 out here, and no handler of the model is named in a statement.
 */
module DispatchOutcomes {
  import opened Base
  import opened Dispatch
  import opened DispatchInvariant
  import opened DispatchProvenance

  // ---- The interface, in its own numbers ------------------------------------

  /** A result as two's complement in 64 bits. */
  function Encoded(v: int): u64
    requires -16 <= v < TWO64
  {
    if v < 0 then 0x1_0000_0000_0000_0000 + v else v
  }

  /** `k` after a call that only answers: the trapped registers with `v` in a0, the watchdog count cleared. */
  function Answer(k: Kernel, f: TrapFrame, v: int): Kernel
    requires -16 <= v < TWO64
  {
    k.(frame := f.(a0 := Encoded(v)), miss := 0)
  }

  /** Slot `index` of the table grants `right` on an object of the kind. */
  predicate GrantsSome(t: Tcb, index: nat, kind: ObjectType, right: bv16) {
    index < 9 && t.caps[index].Some? && t.caps[index].value.otype == kind && t.caps[index].value.rights & right == right
  }

  /** Slot `index` of the table grants `right` on the object. */
  predicate Grants(t: Tcb, index: nat, kind: ObjectType, id: nat, right: bv16) {
    GrantsSome(t, index, kind, right) && t.caps[index].value.objectId == id
  }

  /** The code for a capability that does not grant what an endpoint call needs. */
  function RefusalCode(t: Tcb, index: nat): int {
    if index >= 9 || t.caps[index].None? then -2
    else if t.caps[index].value.otype != EndpointObject then -4
    else -3
  }

  predicate HoldsControl(t: Tcb) {
    exists i | 0 <= i < 9 :: t.caps[i].Some? && t.caps[i].value.otype == ControlObject && t.caps[i].value.rights & 128 == 128
  }

  /** `len` bytes at `va` lie in the page of the task's data and stack. */
  predicate InDataPage(va: nat, len: nat) { 0x20_0000 <= va && va + len <= 0x20_1000 }

  predicate RoutedTo(d: DevId, e: EpId) { (d == 0 && e == 8) || (d == 1 && e == 10) }

  // ---- Handing over the processor -------------------------------------------

  /** `k'` is `m` with the Ready task `b` running: its frame loaded, and what was staged for it delivered. */
  ghost predicate Resumed(m: Kernel, b: Tid, k': Kernel) {
    var t := m.tasks[b];
    && k'.current == b && k'.miss == 0
    && k'.tasks[b] == t.(state := Running, pending := None)
    && (forall u: Tid :: u != b ==> k'.tasks[u] == m.tasks[u])
    && (match t.pending
        case None => k'.frame == t.frame && k'.journal == m.journal && k'.delivered == m.delivered
        case Some(msg) => k'.frame == t.frame.(a0 := |msg.data| % TWO64) && k'.journal == m.journal + [Delivered(b, msg)]
                          && k'.delivered == m.delivered + 1)
    && k'.eps == m.eps && k'.routes == m.routes && k'.kmsg == m.kmsg && k'.cfg == m.cfg
    && k'.status == m.status && k'.ticks == m.ticks
  }

  /** The processor goes on from `m`: to its best Ready task, or to rest if there is none. */
  ghost predicate Switched(m: Kernel, k': Kernel) {
    if exists t: Tid :: IsReady(m.tasks, t) then exists b: Tid :: IsBest(m.tasks, m.current, 16, b) && Resumed(m, b, k')
    else k' == m.(status := IdleHalt)
  }

  lemma ResumeMeans(m: Kernel, b: Tid)
    ensures Resumed(m, b, Resume(m, b))
  {
  }

  /** Every reschedule hands over to the best Ready task, with what was staged for it, or halts. */
  lemma RescheduleOutcome(m: Kernel)
    ensures Switched(m, Reschedule(m))
  {
    hide BestOf, IsBest, Resume, Resumed;
    SelectHighestIsBest(m.tasks, m.current);
    if SelectHighest(m.tasks, m.current).Some? {
      assert IsBest(m.tasks, m.current, 16, SelectHighest(m.tasks, m.current).value);
      IsBestIsReady(m.tasks, m.current, SelectHighest(m.tasks, m.current).value);
      ResumeMeans(m, SelectHighest(m.tasks, m.current).value);
    }
  }

  lemma IsBestIsReady(tasks: Tasks, cur: Tid, b: Tid)
    requires IsBest(tasks, cur, 16, b)
    ensures IsReady(tasks, b)
  {
  }

  /** `k` when the running task trapped with `f` and is left in state `s`, its registers saved. */
  function Left(k: Kernel, f: TrapFrame, s: RtState): Kernel {
    k.(frame := f, miss := 0, tasks := k.tasks[k.current := k.tasks[k.current].(state := s, frame := f)])
  }

  /** Yielding saves the registers and leaves the task Ready; leaving for good saves nothing and leaves it Killed. */
  lemma YieldAndExitOutcome(k: Kernel, ev: Event)
    requires k.status == Live && ev.Syscall?
    ensures ev.num == 1 ==> Switched(Left(k, ev.frame, Ready), Step(k, ev))
    ensures ev.num == 2 ==>
              Switched(k.(frame := ev.frame, miss := 0, tasks := k.tasks[k.current := k.tasks[k.current].(state := Killed)]),
                       Step(k, ev))
  {
    hide Reschedule, Switched;
    var k2 := k.(frame := ev.frame).(miss := 0);
    RescheduleOutcome(SaveCurrent(k2, Ready));
    RescheduleOutcome(SetState(k2, k.current, Killed));
  }

  // ---- Sending and receiving ------------------------------------------------

  lemma GrantMeans(t: Tcb, index: nat, e: nat, right: bv16)
    ensures Grants(t, index, EndpointObject, e, right) ==> EndpointCap(t, index, right) == Granted(e)
    ensures !EndpointCap(t, index, right).Granted? ==> DenyCode(EndpointCap(t, index, right)) == RefusalCode(t, index)
    ensures EndpointCap(t, index, right).Granted? <==> GrantsSome(t, index, EndpointObject, right)
  {
  }

  /** A send or receive through a slot that does not grant it: an error by the reason, and nothing else. */
  lemma DeniedOutcome(k: Kernel, ev: Event)
    requires k.status == Live && ev.Syscall? && ev.num in {3, 4}
    requires !GrantsSome(Cur(k), ev.frame.a0, EndpointObject, if ev.num == 3 then 8 else 16)
    ensures Step(k, ev) == Answer(k, ev.frame, RefusalCode(Cur(k), ev.frame.a0))
  {
    hide EndpointCap, GrantsSome, RefusalCode;
    var t, index := Cur(k), ev.frame.a0;
    GrantMeans(t, index, 0, if ev.num == 3 then 8 else 16);
  }

  /** `k` with the running task parked on `e`, its registers saved. */
  function Parked(k: Kernel, f: TrapFrame, e: EpId, ep: Ep): Kernel {
    Left(k, f, Blocked).(eps := k.eps[e := ep])
  }

  /** The `len` bytes the caller's memory holds at `va`. */
  function BytesAt(mem: nat -> byte, va: nat, len: nat): seq<byte> {
    seq(len, i requires 0 <= i < len => mem(va + i))
  }

  /**
   A send the slot grants. It is refused if it is longer than 128 bytes or outside
   the caller's windows. Otherwise its bytes are taken; a waiting receiver is woken,
   with the message if it has room and an error if not, and the sender told the
   length; with nobody there the sender parks; behind another sender it is refused.
   */
  lemma SendOutcome(k: Kernel, ev: Event, e: EpId)
    requires Inv(k) && k.status == Live && ev.Syscall? && ev.num == 3 && Grants(Cur(k), ev.frame.a0, EndpointObject, e, 8)
    ensures var k', f, va, len := Step(k, ev), ev.frame, ev.frame.a1, ev.frame.a2;
            if len > 128 then k' == Answer(k, f, -6)
            else if !InDataPage(va, len) && !(k.cfg.regionStart <= va && va + len <= k.cfg.regionEnd) then k' == Answer(k, f, -5)
            else
              var bytes := BytesAt(ev.mem, va, len);
              var took := k.(kmsg := bytes + k.kmsg[len..]);
              match k.eps[e]
              case ReceiverWaiting(t, dst, cap) =>
                var msg, r := PendingMsg(dst, bytes), k.tasks[t];
                k' == Answer(took, f, len).(
                  eps := k.eps[e := Idle],
                  tasks := k.tasks[t := if len <= cap then r.(state := Ready, pending := Some(msg))
                                        else r.(state := Ready, frame := r.frame.(a0 := Encoded(-6)))],
                  journal := k.journal + if len <= cap then [Staged(t, msg)] else [])
              case Idle => Switched(Parked(took, f, e, SenderWaiting(k.current, len)), k')
              case SenderWaiting(_, _) => k' == Answer(took, f, -5)
  {
    hide Reschedule, Switched, EndpointCap, Core;
    GrantMeans(Cur(k), ev.frame.a0, e, 8);
    InvAt(k, e, 0);
    if ev.frame.a2 <= 128 {
      var len := ev.frame.a2;
      var k2 := k.(frame := ev.frame).(miss := 0);
      var took := k2.(kmsg := Overlay(k.kmsg, UserBytes(ev.mem, ev.frame.a1, len)));
      assert UserBytes(ev.mem, ev.frame.a1, len) == BytesAt(ev.mem, ev.frame.a1, len);
      assert took.kmsg[..len] == BytesAt(ev.mem, ev.frame.a1, len);
      RescheduleOutcome(SaveCurrent(SetEp(took, e, SenderWaiting(k.current, len)), Blocked));
      assert k.journal + [] == k.journal;
    }
  }

  /** The device whose kept event the running task would take at `e`, if any. */
  predicate OwnEvent(k: Kernel, e: EpId, d: DevId) { RoutedTo(d, e) && k.routes[d] == IrqRoute(k.current, true) }

  lemma OwnEventFound(k: Kernel, e: EpId, d: DevId)
    ensures OwnEvent(k, e, d) ==> IrqPendingFor(k.routes, e, k.current) == Some(d)
    ensures (forall x: DevId :: !OwnEvent(k, e, x)) ==> IrqPendingFor(k.routes, e, k.current) == None
  {
    var found := IrqPendingFor(k.routes, e, k.current);
    assert found.Some? ==> OwnEvent(k, e, found.value);
  }

  /** A receive the slot grants, when an event is kept for the caller: it takes it, if it has room for the byte. */
  lemma ReceiveEventOutcome(k: Kernel, ev: Event, e: EpId, d: DevId)
    requires k.status == Live && ev.Syscall? && ev.num == 4 && Grants(Cur(k), ev.frame.a0, EndpointObject, e, 16)
    requires OwnEvent(k, e, d)
    ensures Step(k, ev) ==
            if ev.frame.a2 >= 1 && InDataPage(ev.frame.a1, 1)
            then Answer(k, ev.frame, 1).(routes := k.routes[d := IrqRoute(k.current, false)],
                                         journal := k.journal + [IrqGiven(d, k.current)])
            else Answer(k, ev.frame, -5)
  {
    hide EndpointCap, IrqPendingFor, Grants;
    GrantMeans(Cur(k), ev.frame.a0, e, 16);
    OwnEventFound(k, e, d);
  }

  /**
   A receive the slot grants, with no event kept. From a parked sender it gets the
   staged bytes, both are told the length and the sender is Ready again; with nobody
   there it parks; without room, or behind another receiver, it is refused.
   */
  lemma ReceiveOutcome(k: Kernel, ev: Event, e: EpId)
    requires Inv(k) && k.status == Live && ev.Syscall? && ev.num == 4 && Grants(Cur(k), ev.frame.a0, EndpointObject, e, 16)
    requires forall d: DevId :: !OwnEvent(k, e, d)
    ensures var k', f, dst, cap := Step(k, ev), ev.frame, ev.frame.a1, ev.frame.a2;
            match k.eps[e]
            case SenderWaiting(s, len) =>
              len <= 128 &&
              if len <= cap && InDataPage(dst, len)
              then k' == Answer(k, f, len).(
                           eps := k.eps[e := Idle],
                           tasks := k.tasks[s := k.tasks[s].(state := Ready, frame := k.tasks[s].frame.(a0 := len))],
                           journal := k.journal + [Copied(k.current, s, PendingMsg(dst, k.kmsg[..len]))])
              else k' == Answer(k, f, -5)
            case Idle =>
              if cap <= 128 && InDataPage(dst, cap) then Switched(Parked(k, f, e, ReceiverWaiting(k.current, dst, cap)), k')
              else k' == Answer(k, f, -5)
            case ReceiverWaiting(_, _, _) => k' == Answer(k, f, -5)
  {
    hide Reschedule, Switched, EndpointCap, Core, Grants, IrqPendingFor, OwnEvent;
    GrantMeans(Cur(k), ev.frame.a0, e, 16);
    OwnEventFound(k, e, 0);
    InvAt(k, e, 0);
    var k2 := k.(frame := ev.frame).(miss := 0);
    RescheduleOutcome(SaveCurrent(SetEp(k2, e, ReceiverWaiting(k.current, ev.frame.a1, ev.frame.a2)), Blocked));
  }

  // ---- Raising a device event -----------------------------------------------

  /** The code for a capability that does not let its holder raise a device event. */
  function DeviceRefusalCode(t: Tcb, index: nat): int {
    if index >= 9 || t.caps[index].None? then -2
    else if t.caps[index].value.otype != DeviceObject then -4
    else if t.caps[index].value.objectId >= 2 then -2
    else -3
  }

  lemma DeviceGrantMeans(t: Tcb, index: nat)
    ensures forall d: DevId :: Grants(t, index, DeviceObject, d, 64) ==> DeviceCap(t, index, 64) == Granted(d)
    ensures (forall d: DevId :: !Grants(t, index, DeviceObject, d, 64)) ==>
              !DeviceCap(t, index, 64).Granted? && DenyCode(DeviceCap(t, index, 64)) == DeviceRefusalCode(t, index)
  {
    assert DeviceCap(t, index, 64).Granted? ==> Grants(t, index, DeviceObject, DeviceCap(t, index, 64).id, 64);
  }

  lemma RaiseDeniedOutcome(k: Kernel, ev: Event)
    requires k.status == Live && ev.Syscall? && ev.num == 20
    requires forall d: DevId :: !Grants(Cur(k), ev.frame.a0, DeviceObject, d, 64)
    ensures Step(k, ev) == Answer(k, ev.frame, DeviceRefusalCode(Cur(k), ev.frame.a0))
  {
    hide DeviceCap, Grants, IrqRaise;
    DeviceGrantMeans(Cur(k), ev.frame.a0);
  }

  /**
   A raise the slot grants. A dead or missing receiver loses the event, also one kept
   before; a receiver that waits for it with room gets it and is told apart by the
   answer 0; with nobody waiting it is kept and the answer is 1; otherwise it is lost.
   */
  lemma RaiseCallOutcome(k: Kernel, ev: Event, d: DevId)
    requires Inv(k) && k.status == Live && ev.Syscall? && ev.num == 20 && Grants(Cur(k), ev.frame.a0, DeviceObject, d, 64)
    ensures var k', f, r, e := Step(k, ev), ev.frame, k.routes[d].receiver, if d == 0 then 8 else 10;
            if r >= 16 || k.tasks[r].state in {Faulted, Killed, Empty}
            then k' == Answer(k, f, -7).(routes := k.routes[d := IrqRoute(r, false)])
            else match k.eps[e]
              case ReceiverWaiting(t, dst, cap) =>
                var msg := PendingMsg(dst, [0x10]);
                k' == if t == r && cap >= 1
                      then Answer(k, f, 0).(
                             tasks := k.tasks[t := k.tasks[t].(state := Ready, pending := Some(msg))],
                             eps := k.eps[e := Idle],
                             journal := k.journal + [Staged(t, msg), IrqGiven(d, t)])
                      else Answer(k, f, -7)
              case _ => k' == Answer(k, f, 1).(routes := k.routes[d := IrqRoute(r, true)])
  {
    hide DeviceCap, Grants, Core;
    DeviceGrantMeans(Cur(k), ev.frame.a0);
    InvAt(k, IrqEndpoint(d), d);
    assert forall a: Note, b: Note :: k.journal + [a] + [b] == k.journal + [a, b];
  }

  // ---- Task control ---------------------------------------------------------

  /** The registers a task starts with: its entry point and stack, the boot status word, and zeros. */
  function FreshFrame(k: Kernel, entryVa: u64, stackTopVa: u64): TrapFrame {
    TrapFrame(0, 0, 0, 0, stackTopVa, entryVa, k.cfg.userStatus, seq(26, _ => 0))
  }

  function Unparked(eps: Endpoints, t: Tid): Endpoints {
    seq(12, e requires 0 <= e < 12 => if !eps[e].Idle? && eps[e].tid == t then Idle else eps[e])
  }

  function Silenced(routes: Routes, t: Tid): Routes {
    [IrqRoute(routes[0].receiver, routes[0].pending && routes[0].receiver != t),
     IrqRoute(routes[1].receiver, routes[1].pending && routes[1].receiver != t)]
  }

  function DropNote(k: Kernel, t: Tid): seq<Note> {
    if k.tasks[t].pending.Some? then [Dropped(t, k.tasks[t].pending.value)] else []
  }

  /** The entry registers the started task for the device: bit 5 of a device capability. */
  predicate Registers(caps: CapTable, d: DevId) {
    exists i | 0 <= i < 9 :: Subscribes(caps[i], d)
  }

  predicate Subscribes(c: Option<Cap>, d: DevId) {
    c.Some? && c.value.otype == DeviceObject && c.value.objectId == d && c.value.rights & 32 != 0
  }

  function Subscribed(routes: Routes, caps: CapTable, t: Tid): Routes {
    [IrqRoute(if Registers(caps, 0) then t else routes[0].receiver, routes[0].pending),
     IrqRoute(if Registers(caps, 1) then t else routes[1].receiver, routes[1].pending)]
  }

  lemma UnparkedIsCleared(eps: Endpoints, t: Tid)
    ensures Unparked(eps, t) == ClearedEps(eps, t)
  {
  }

  lemma SilencedIsDropped(routes: Routes, t: Tid)
    ensures Silenced(routes, t) == DroppedRoutes(routes, t)
  {
  }

  lemma {:induction false} GrantedRoutesExactly(routes: Routes, caps: CapTable, t: Tid, n: nat, d: DevId)
    requires n <= 9
    ensures GrantedRoutes(routes, caps, t, n)[d] ==
            IrqRoute(if exists i | 0 <= i < n :: Subscribes(caps[i], d) then t else routes[d].receiver, routes[d].pending)
  {
    if n > 0 {
      GrantedRoutesExactly(routes, caps, t, n - 1, d);
      assert (exists i | 0 <= i < n :: Subscribes(caps[i], d)) <==>
             ((exists i | 0 <= i < n - 1 :: Subscribes(caps[i], d)) || Subscribes(caps[n - 1], d));
    }
  }

  lemma SubscribedIsGranted(routes: Routes, caps: CapTable, t: Tid)
    ensures Subscribed(routes, caps, t) == GrantedRoutes(routes, caps, t, 9)
  {
    GrantedRoutesExactly(routes, caps, t, 9, 0);
    GrantedRoutesExactly(routes, caps, t, 9, 1);
  }

  lemma ControlMeans(t: Tcb)
    ensures HoldsControl(t) <==> Controls(t)
  {
  }

  /** Starting, killing, restarting and powering off are for holders of Control; anyone else gets the same error. */
  lemma NoControlOutcome(k: Kernel, ev: Event)
    requires k.status == Live && ev.Syscall? && ev.num in {8, 12, 13, 14} && !HoldsControl(Cur(k))
    ensures Step(k, ev) == Answer(k, ev.frame, -2)
  {
    hide HoldsControl, Controls;
    ControlMeans(Cur(k));
  }

  lemma ShutdownOutcome(k: Kernel, ev: Event)
    requires k.status == Live && ev.Syscall? && ev.num == 14 && HoldsControl(Cur(k))
    ensures Step(k, ev) == k.(frame := ev.frame, miss := 0, status := PoweredOff)
  {
    hide HoldsControl, Controls;
    ControlMeans(Cur(k));
  }

  /** `k` with task `t` stopped and all that was staged, parked or kept for it gone. */
  function Removed(k: Kernel, t: Tid): Kernel {
    k.(tasks := k.tasks[t := k.tasks[t].(state := Killed, pending := None)],
       eps := Unparked(k.eps, t), routes := Silenced(k.routes, t), journal := k.journal + DropNote(k, t))
  }

  lemma KillIsRemoved(k: Kernel, t: Tid)
    ensures Kill(k, t) == Removed(k, t)
  {
    hide ClearedEps, Unparked, DroppedRoutes, Silenced;
    UnparkedIsCleared(k.eps, t);
    SilencedIsDropped(k.routes, t);
    assert k.journal + [] == k.journal;
    assert Kill(k, t).tasks == Removed(k, t).tasks;
  }

  /** Killing a task that exists stops it and forgets it everywhere; killing oneself also gives up the processor. */
  lemma KillOutcome(k: Kernel, ev: Event)
    requires k.status == Live && ev.Syscall? && ev.num == 12 && HoldsControl(Cur(k))
    ensures var k', f, t := Step(k, ev), ev.frame, ev.frame.a0;
            if t >= 16 || k.tasks[t].state == Empty then k' == Answer(k, f, -5)
            else if t == k.current then Switched(Removed(k, t).(frame := f, miss := 0), k')
            else k' == Answer(Removed(k, t), f, 0)
  {
    hide HoldsControl, Controls, Reschedule, Switched, Kill, Unparked, Silenced;
    ControlMeans(Cur(k));
    if ev.frame.a0 < 16 {
      var k2 := k.(frame := ev.frame).(miss := 0);
      KillIsRemoved(k2, ev.frame.a0);
      RescheduleOutcome(Kill(k2, ev.frame.a0));
    }
  }

  /** `k` with task `t` as at its start, keeping its table, priority and space; what was staged or parked for it is gone. */
  function Renewed(k: Kernel, t: Tid): Kernel {
    var tcb := k.tasks[t];
    k.(tasks := k.tasks[t := tcb.(state := Ready, pending := None, frame := FreshFrame(k, tcb.entryVa, tcb.stackTopVa))],
       eps := Unparked(k.eps, t), journal := k.journal + DropNote(k, t))
  }

  lemma RearmIsRenewed(k: Kernel, t: Tid)
    ensures Rearm(k, t) == Renewed(k, t)
  {
    hide ClearedEps, Unparked;
    UnparkedIsCleared(k.eps, t);
    assert k.journal + [] == k.journal;
  }

  /** A restart renews any other task that was ever started, whatever its state; it is refused exactly otherwise. */
  lemma RestartOutcome(k: Kernel, ev: Event)
    requires k.status == Live && ev.Syscall? && ev.num == 13 && HoldsControl(Cur(k))
    ensures var f, t := ev.frame, ev.frame.a0;
            Step(k, ev) ==
            if t < 16 && t != k.current && k.tasks[t].state != Empty && k.tasks[t].entryVa != 0
            then Answer(Renewed(k, t), f, 0) else Answer(k, f, -5)
  {
    hide HoldsControl, Controls, Rearm, Renewed;
    ControlMeans(Cur(k));
    if ev.frame.a0 < 16 {
      var k2 := k.(frame := ev.frame).(miss := 0);
      RearmIsRenewed(k2, ev.frame.a0);
      RenewedFrame(k, k2, ev.frame.a0);
    }
  }

  lemma RenewedFrame(k: Kernel, k2: Kernel, t: Tid)
    requires k2 == k.(frame := k2.frame, miss := 0)
    ensures Renewed(k2, t) == Renewed(k, t).(frame := k2.frame, miss := 0)
  {
    hide Unparked;
  }

  /** `k` with the service in its slot for the first time. */
  function Introduced(k: Kernel, def: ServiceDef): Kernel
    requires def.slot < 16
  {
    k.(tasks := k.tasks[def.slot := Tcb(Ready, def.prio, def.root, FreshFrame(k, def.entryVa, def.stackTopVa), None,
                                        def.caps, def.entryVa, def.stackTopVa)],
       routes := Subscribed(k.routes, def.caps, def.slot))
  }

  /**
   A start of a listed service puts it in its empty slot, with its entry's table,
   priority, space and device subscriptions, or renews it if it had stopped; a
   service that is alive, or not listed, is refused.
   */
  lemma StartOutcome(k: Kernel, ev: Event)
    requires Inv(k) && k.status == Live && ev.Syscall? && ev.num == 8 && HoldsControl(Cur(k))
    ensures var k', f, i := Step(k, ev), ev.frame, ev.frame.a0;
            if i >= |k.cfg.services| then k' == Answer(k, f, -5)
            else
              var def := k.cfg.services[i];
              def.slot < 16 &&
              k' == match k.tasks[def.slot].state
                    case Empty => Answer(Introduced(k, def), f, def.slot)
                    case Killed | Faulted => Answer(Renewed(k, def.slot), f, def.slot)
                    case _ => Answer(k, f, -7)
  {
    hide HoldsControl, Controls, Rearm, Renewed, GrantedRoutes, Subscribed, Core;
    ControlMeans(Cur(k));
    if ev.frame.a0 < |k.cfg.services| {
      var def := k.cfg.services[ev.frame.a0];
      var k2 := k.(frame := ev.frame).(miss := 0);
      CoreConfig(k);
      RearmIsRenewed(k2, def.slot);
      RenewedFrame(k, k2, def.slot);
      SubscribedIsGranted(k.routes, def.caps, def.slot);
    }
  }

  lemma CoreConfig(k: Kernel)
    requires Core(k)
    ensures ConfigOk(k.cfg)
  {
  }

  /** Every other call leaves its own result and nothing else. */
  lemma OtherCallOutcome(k: Kernel, ev: Event)
    requires k.status == Live && ev.Syscall? && ev.num !in {1, 2, 3, 4, 8, 12, 13, 14, 20} && -16 <= ev.result < TWO64
    ensures Step(k, ev) == Answer(k, ev.frame, ev.result)
  {
  }

  // ---- Faults and ticks -----------------------------------------------------

  /** Someone waits on `e` with room for a notice of one byte. */
  predicate Hears(k: Kernel, e: EpId) { k.eps[e].ReceiverWaiting? && k.eps[e].cap >= 1 }

  function Notice(k: Kernel, e: EpId): seq<Note> {
    if Hears(k, e) then [Staged(k.eps[e].tid, PendingMsg(k.eps[e].dst, [4]))] else []
  }

  function Cleared(ep: Ep): Ep { if ep.ReceiverWaiting? then Idle else ep }

  /** A task when the running one faults: the notice goes to who waits on endpoint 2, and to who waits on 3. */
  function Bystander(k: Kernel, t: Tid): Tcb {
    if t == k.current then k.tasks[t].(state := Faulted)
    else if Hears(k, 2) && k.eps[2].tid == t then k.tasks[t].(state := Ready, pending := Some(PendingMsg(k.eps[2].dst, [4])))
    else if Hears(k, 3) && k.eps[3].tid == t then k.tasks[t].(state := Ready, pending := Some(PendingMsg(k.eps[3].dst, [4])))
    else k.tasks[t]
  }

  /** `k` with the fault of the running task contained: it is marked, its events dropped, the fault channels told. */
  function Contained(k: Kernel): Kernel {
    k.(tasks := seq(16, t requires 0 <= t < 16 => Bystander(k, t)),
       eps := k.eps[2 := Cleared(k.eps[2])][3 := Cleared(k.eps[3])],
       routes := Silenced(k.routes, k.current),
       journal := k.journal + Notice(k, 2) + Notice(k, 3))
  }

  lemma NotifyMeans(k: Kernel, e: EpId)
    requires k.eps[e].ReceiverWaiting? ==> ValidUserBuf(k.eps[e].dst, k.eps[e].cap)
    ensures NotifyEndpoint(k, e, 4) ==
            k.(tasks := if Hears(k, e) then k.tasks[k.eps[e].tid := k.tasks[k.eps[e].tid].(
                                              state := Ready, pending := Some(PendingMsg(k.eps[e].dst, [4])))]
                        else k.tasks,
               eps := k.eps[e := Cleared(k.eps[e])], journal := k.journal + Notice(k, e))
  {
    assert k.journal + [] == k.journal;
    assert k.eps[e := k.eps[e]] == k.eps;
  }

  lemma ContainMeans(k: Kernel)
    requires Core(k) && Cur(k).state == Running
    ensures ContainFault(k) == Reschedule(Contained(k))
  {
    hide Reschedule, NotifyEndpoint, DroppedRoutes, Silenced, Core;
    InvAt(k, 2, 0);
    InvAt(k, 3, 0);
    SilencedIsDropped(k.routes, k.current);
    var k1 := DropIrqs(SetState(k, k.current, Faulted), k.current);
    NotifyMeans(k1, 2);
    var k2 := NotifyEndpoint(k1, 2, 4);
    NotifyMeans(k2, 3);
    var k3 := NotifyEndpoint(k2, 3, 4);
    ApartAt(k, 2, 3);
    assert k3.tasks == Contained(k).tasks;
    assert k3.eps == Contained(k).eps;
    assert k3 == Contained(k);
  }

  lemma ApartAt(k: Kernel, e: EpId, f: EpId)
    requires Core(k) && e != f
    ensures !k.eps[e].Idle? && !k.eps[f].Idle? ==> k.eps[e].tid != k.eps[f].tid
  {
    assert Apart(k);
    if !k.eps[e].Idle? && !k.eps[f].Idle? && k.eps[e].tid == k.eps[f].tid {
      assert ParkedAs(k.eps[e], k.eps[e].tid) && ParkedAs(k.eps[f], k.eps[e].tid);
    }
  }

  /** A fault of the running task is contained and the processor handed over. */
  lemma FaultOutcome(k: Kernel, ev: Event)
    requires Inv(k) && k.status == Live && ev.UserFault?
    ensures Switched(Contained(k.(frame := ev.frame)), Step(k, ev))
  {
    hide Reschedule, Switched, ContainFault, Contained, Core;
    var k1 := k.(frame := ev.frame);
    CoreFrame(k, k1);
    ContainMeans(k1);
    RescheduleOutcome(Contained(k1));
  }

  /** Some task is Ready that outranks the running one. */
  ghost predicate Outranked(k: Kernel) {
    exists t: Tid :: IsReady(k.tasks, t) && k.tasks[t].prio > Cur(k).prio
  }

  /**
   A tick counts. The fifth in a row without a call is a fault of the running task;
   before that the best Ready task takes over if it outranks it, and otherwise it
   runs on with one more miss.
   */
  lemma TickOutcome(k: Kernel, ev: Event)
    requires Inv(k) && k.status == Live && ev.TimerTick?
    ensures var k', m := Step(k, ev), k.(frame := ev.frame, ticks := k.ticks + 1, miss := k.miss + 1);
            if k.miss >= 4 then Switched(Contained(m), k')
            else if Outranked(k)
            then exists b: Tid :: IsBest(k.tasks, k.current, 16, b) && Resumed(Left(m, ev.frame, Ready), b, k')
            else k' == m
  {
    hide Reschedule, Switched, ContainFault, Contained, Core, SelectHighest, IsBest, Resume, Resumed;
    var m := k.(frame := ev.frame, ticks := k.ticks + 1, miss := k.miss + 1);
    CoreFrame(k, m);
    if k.miss >= 4 {
      ContainMeans(m);
      RescheduleOutcome(Contained(m));
    } else {
      PreemptMeans(m);
      assert SaveCurrent(m, Ready).(miss := 0) == Left(m, ev.frame, Ready);
      if Outranked(k) {
        var b: Tid :| IsBest(m.tasks, m.current, 16, b) && Preempt(m) == Resume(SaveCurrent(m, Ready), b);
        assert IsBest(k.tasks, k.current, 16, b);
        ResumeMeans(SaveCurrent(m, Ready), b);
        SameResume(SaveCurrent(m, Ready), Left(m, ev.frame, Ready), b, Step(k, ev));
      }
    }
  }

  lemma SameResume(m: Kernel, m': Kernel, b: Tid, k': Kernel)
    requires m' == m.(miss := 0) && Resumed(m, b, k')
    ensures Resumed(m', b, k')
  {
  }

  lemma PreemptMeans(k: Kernel)
    requires Cur(k).state == Running
    ensures !Outranked(k) ==> Preempt(k) == k
    ensures Outranked(k) ==>
              exists b: Tid :: IsBest(k.tasks, k.current, 16, b) && Preempt(k) == Resume(SaveCurrent(k, Ready), b)
  {
    hide SelectHighest, Resume;
    SelectHighestIsBest(k.tasks, k.current);
    if SelectHighest(k.tasks, k.current).Some? {
      var b := SelectHighest(k.tasks, k.current).value;
      assert IsReady(k.tasks, b);
      if Outranked(k) {
        var t: Tid :| IsReady(k.tasks, t) && k.tasks[t].prio > Cur(k).prio;
        assert Distance(k.current, t) <= 16;
        assert IsBest(k.tasks, k.current, 16, b);
      }
    }
  }

  // ---- Every delivery is answered -------------------------------------------

  /** Whoever is noted as delivered to runs now, told the length, with nothing left staged for it. */
  ghost predicate DeliveriesAnswered(k: Kernel, k': Kernel) {
    && Extends(k, k')
    && (forall t: Tid, msg: PendingMsg :: Delivered(t, msg) in News(k, k') ==>
          k'.current == t && k'.tasks[t].state == Running && k'.tasks[t].pending == None && k'.frame.a0 == |msg.data| <= 128)
  }

  ghost predicate ShortPending(k: Kernel) {
    forall t: Tid :: k.tasks[t].pending.Some? ==> |k.tasks[t].pending.value.data| <= 128
  }

  lemma SwitchAnswers(k: Kernel, m: Kernel, notes: seq<Note>, k': Kernel)
    requires m.journal == k.journal + notes && (forall n | n in notes :: !n.Delivered?) && ShortPending(m) && Switched(m, k')
    ensures DeliveriesAnswered(k, k')
  {
    hide IsBest;
    if exists t: Tid :: IsReady(m.tasks, t) {
      var b: Tid :| IsBest(m.tasks, m.current, 16, b) && Resumed(m, b, k');
      var last := if m.tasks[b].pending.Some? then [Delivered(b, m.tasks[b].pending.value)] else [];
      assert k'.journal == k.journal + (notes + last);
      assert News(k, k') == notes + last;
    } else {
      assert News(k, k') == notes;
    }
  }

  lemma QuietAnswers(k: Kernel, k': Kernel, notes: seq<Note>)
    requires k'.journal == k.journal + notes && (forall n | n in notes :: !n.Delivered?)
    ensures DeliveriesAnswered(k, k')
  {
    assert News(k, k') == notes;
  }

  lemma InvShort(k: Kernel)
    requires Inv(k)
    ensures ShortPending(k)
  {
    forall t: Tid
      ensures k.tasks[t].pending.Some? ==> |k.tasks[t].pending.value.data| <= 128
    {
      assert TaskOk(k, t);
    }
  }

  lemma SendAnswers(k: Kernel, ev: Event)
    requires Inv(k) && k.status == Live && ev.Syscall? && ev.num == 3
    ensures DeliveriesAnswered(k, Step(k, ev))
  {
    hide Step, Switched, Core, DeliveriesAnswered, Grants, GrantsSome;
    InvShort(k);
    if e: EpId :| Grants(Cur(k), ev.frame.a0, EndpointObject, e, 8) {
      SendOutcome(k, ev, e);
      if k.eps[e].Idle? && Step(k, ev).journal != k.journal {
        var took := k.(kmsg := BytesAt(ev.mem, ev.frame.a1, ev.frame.a2) + k.kmsg[ev.frame.a2..]);
        SwitchAnswers(k, Parked(took, ev.frame, e, SenderWaiting(k.current, ev.frame.a2)), [], Step(k, ev));
      } else {
        QuietAnswers(k, Step(k, ev), Step(k, ev).journal[|k.journal|..]);
      }
    } else {
      GrantedSomewhere(k, ev.frame.a0, 8);
      DeniedOutcome(k, ev);
      QuietAnswers(k, Step(k, ev), []);
    }
  }

  lemma GrantedSomewhere(k: Kernel, index: nat, right: bv16)
    requires Inv(k)
    ensures GrantsSome(Cur(k), index, EndpointObject, right) <==>
              exists e: EpId :: Grants(Cur(k), index, EndpointObject, e, right)
  {
    hide Core;
    CurrentCaps(k);
    if GrantsSome(Cur(k), index, EndpointObject, right) {
      assert Grants(Cur(k), index, EndpointObject, Cur(k).caps[index].value.objectId, right);
    }
  }

  lemma ReceiveAnswers(k: Kernel, ev: Event)
    requires Inv(k) && k.status == Live && ev.Syscall? && ev.num == 4
    ensures DeliveriesAnswered(k, Step(k, ev))
  {
    hide Step, Switched, Core, DeliveriesAnswered, Grants, GrantsSome, OwnEvent;
    InvShort(k);
    if e: EpId :| Grants(Cur(k), ev.frame.a0, EndpointObject, e, 16) {
      if d: DevId :| OwnEvent(k, e, d) {
        ReceiveEventOutcome(k, ev, e, d);
        QuietAnswers(k, Step(k, ev), Step(k, ev).journal[|k.journal|..]);
      } else {
        ReceiveOutcome(k, ev, e);
        if k.eps[e].Idle? && Step(k, ev).journal != k.journal {
          SwitchAnswers(k, Parked(k, ev.frame, e, ReceiverWaiting(k.current, ev.frame.a1, ev.frame.a2)), [], Step(k, ev));
        } else {
          QuietAnswers(k, Step(k, ev), Step(k, ev).journal[|k.journal|..]);
        }
      }
    } else {
      GrantedSomewhere(k, ev.frame.a0, 16);
      DeniedOutcome(k, ev);
      QuietAnswers(k, Step(k, ev), []);
    }
  }

  lemma ControlAnswers(k: Kernel, ev: Event)
    requires Inv(k) && k.status == Live && ev.Syscall? && ev.num in {8, 12, 13, 14}
    ensures DeliveriesAnswered(k, Step(k, ev))
  {
    hide Step, Switched, Core, DeliveriesAnswered, HoldsControl, Unparked, Silenced, Subscribed, FreshFrame;
    InvShort(k);
    var f, t := ev.frame, ev.frame.a0;
    if !HoldsControl(Cur(k)) {
      NoControlOutcome(k, ev);
      QuietAnswers(k, Step(k, ev), []);
    } else if ev.num == 8 {
      StartOutcome(k, ev);
      QuietAnswers(k, Step(k, ev), Step(k, ev).journal[|k.journal|..]);
    } else if ev.num == 12 {
      KillOutcome(k, ev);
      if t == k.current {
        SwitchAnswers(k, Removed(k, t).(frame := f, miss := 0), DropNote(k, t), Step(k, ev));
      } else {
        QuietAnswers(k, Step(k, ev), Step(k, ev).journal[|k.journal|..]);
      }
    } else if ev.num == 13 {
      RestartOutcome(k, ev);
      QuietAnswers(k, Step(k, ev), Step(k, ev).journal[|k.journal|..]);
    } else {
      ShutdownOutcome(k, ev);
      QuietAnswers(k, Step(k, ev), []);
    }
  }

  lemma RaiseAnswers(k: Kernel, ev: Event)
    requires Inv(k) && k.status == Live && ev.Syscall? && ev.num == 20
    ensures DeliveriesAnswered(k, Step(k, ev))
  {
    hide Step, Core, DeliveriesAnswered, Grants;
    if d: DevId :| Grants(Cur(k), ev.frame.a0, DeviceObject, d, 64) {
      RaiseCallOutcome(k, ev, d);
    } else {
      RaiseDeniedOutcome(k, ev);
    }
    QuietAnswers(k, Step(k, ev), Step(k, ev).journal[|k.journal|..]);
  }

  lemma ContainedShort(k: Kernel)
    requires ShortPending(k)
    ensures ShortPending(Contained(k))
  {
    hide Silenced;
    forall t: Tid
      ensures Contained(k).tasks[t] == Bystander(k, t)
    {
    }
  }

  lemma InterruptAnswers(k: Kernel, ev: Event)
    requires Inv(k) && k.status == Live && !ev.Syscall?
    ensures DeliveriesAnswered(k, Step(k, ev))
  {
    hide Step, Switched, Core, DeliveriesAnswered, Silenced, Bystander, Resumed, IsBest;
    InvShort(k);
    var m := if ev.UserFault? then k.(frame := ev.frame) else k.(frame := ev.frame, ticks := k.ticks + 1, miss := k.miss + 1);
    ContainedShort(m);
    if ev.UserFault? {
      FaultOutcome(k, ev);
      SwitchAnswers(k, Contained(m), Notice(m, 2) + Notice(m, 3), Step(k, ev));
    } else {
      TickOutcome(k, ev);
      if k.miss >= 4 {
        SwitchAnswers(k, Contained(m), Notice(m, 2) + Notice(m, 3), Step(k, ev));
      } else if Outranked(k) {
        TakeoverAnswers(k, ev);
      } else {
        QuietAnswers(k, Step(k, ev), []);
      }
    }
  }

  lemma TakeoverAnswers(k: Kernel, ev: Event)
    requires Inv(k) && k.status == Live && ev.TimerTick? && k.miss < 4 && Outranked(k)
    ensures DeliveriesAnswered(k, Step(k, ev))
  {
    hide Step, Core, IsBest;
    InvShort(k);
    TickOutcome(k, ev);
    var m := Left(k.(ticks := k.ticks + 1), ev.frame, Ready);
    var b: Tid :| IsBest(k.tasks, k.current, 16, b) && Resumed(m, b, Step(k, ev));
    var last := if m.tasks[b].pending.Some? then [Delivered(b, m.tasks[b].pending.value)] else [];
    assert News(k, Step(k, ev)) == last;
  }

  /** Whatever the step, a task it delivers a message to runs now with that message's length in a0. */
  lemma DeliveredIsAnswered(k: Kernel, ev: Event)
    requires Inv(k) && k.status == Live
    ensures DeliveriesAnswered(k, Step(k, ev))
  {
    hide Step, Core, DeliveriesAnswered, Switched;
    InvShort(k);
    if !ev.Syscall? {
      InterruptAnswers(k, ev);
    } else if ev.num in {1, 2} {
      YieldAndExitOutcome(k, ev);
      SwitchAnswers(k, if ev.num == 1 then Left(k, ev.frame, Ready)
                       else k.(frame := ev.frame, miss := 0, tasks := k.tasks[k.current := k.tasks[k.current].(state := Killed)]),
                    [], Step(k, ev));
    } else if ev.num == 3 {
      SendAnswers(k, ev);
    } else if ev.num == 4 {
      ReceiveAnswers(k, ev);
    } else if ev.num in {8, 12, 13, 14} {
      ControlAnswers(k, ev);
    } else if ev.num == 20 {
      RaiseAnswers(k, ev);
    } else {
      OtherCallKeepsJournal(k, ev);
      QuietAnswers(k, Step(k, ev), []);
    }
  }

  lemma OtherCallKeepsJournal(k: Kernel, ev: Event)
    requires k.status == Live && ev.Syscall? && ev.num !in {1, 2, 3, 4, 8, 12, 13, 14, 20}
    ensures Step(k, ev).journal == k.journal
  {
  }
}
