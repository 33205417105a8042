/**
 The on-target dispatcher as a state machine: task control blocks, endpoints,
 deferred IPC, IRQ routes, watchdog and preemption, driven by syscalls, timer
 ticks and faults. Spin loops, shutdown and index panics are terminal statuses.

 User memory is abstract: an event carries the byte a read of the running
 task's memory returns at each address, and every byte the kernel writes into
 a task's memory is an entry of the journal.
 */
module Dispatch {
  import opened Base

  const MAX_TASKS: nat := 16
  const NUM_ENDPOINTS: nat := 12
  const NUM_DEVICES: nat := 2
  const CAPS_PER_TASK: nat := 9
  const IPC_MSG_MAX: nat := 128
  const WATCHDOG_WINDOW: nat := 4
  const USER_DATA_VA: nat := 0x20_0000
  const USER_DATA_END: nat := 0x20_1000
  const EP_FAULT: nat := 2
  const EP_EVENT: nat := 3
  const FAULT_CODE_WATCHDOG: byte := 4
  const IRQ_EVENT_CODE: byte := 0x10
  const IRQ_PENDING: int := 1

  const ERR_INVALID_CAP: int := -2
  const ERR_INSUFFICIENT_RIGHTS: int := -3
  const ERR_WRONG_OBJECT_TYPE: int := -4
  const ERR_INVALID_ARG: int := -5
  const ERR_MSG_TOO_LARGE: int := -6
  const ERR_NO_SLOT: int := -7

  const SYS_YIELD: nat := 1
  const SYS_EXIT: nat := 2
  const SYS_SEND: nat := 3
  const SYS_RECV: nat := 4
  const SYS_TASK_START: nat := 8
  const SYS_TASK_KILL: nat := 12
  const SYS_TASK_RESTART: nat := 13
  const SYS_SHUTDOWN: nat := 14
  const SYS_IRQ_RAISE: nat := 20

  const RIGHT_SEND: bv16 := 8
  const RIGHT_RECV: bv16 := 16
  const RIGHT_CONTROL: bv16 := 128
  const DEV_RIGHT_IRQ_RECEIVE: bv16 := 32
  const DEV_RIGHT_DRIVER_CONTROL: bv16 := 64

  // ---- State ----------------------------------------------------------------

  type Tid = i: nat | i < MAX_TASKS
  type EpId = i: nat | i < NUM_ENDPOINTS
  type DevId = i: nat | i < NUM_DEVICES

  datatype ObjectType = EndpointObject | ConsoleObject | ControlObject | InfoObject | DeviceObject
  datatype Cap = Cap(otype: ObjectType, objectId: u32, rights: bv16)
  type CapTable = c: seq<Option<Cap>> | |c| == CAPS_PER_TASK witness seq(CAPS_PER_TASK, _ => None)

  /** The saved registers: arguments and result a0..a3, stack, resume point, and the rest. */
  datatype TrapFrame = TrapFrame(a0: u64, a1: u64, a2: u64, a3: u64, sp: u64, sepc: u64, sstatus: u64, rest: seq<u64>)

  datatype PendingMsg = PendingMsg(dst: u64, data: seq<byte>)

  datatype RtState = Empty | Ready | Running | Blocked | Faulted | Killed

  datatype Tcb = Tcb(state: RtState, prio: byte, satpRoot: u64, frame: TrapFrame, pending: Option<PendingMsg>,
                     caps: CapTable, entryVa: u64, stackTopVa: u64)

  datatype Ep = Idle | SenderWaiting(tid: Tid, len: nat) | ReceiverWaiting(tid: Tid, dst: u64, cap: u64)

  /** `receiver == MAX_TASKS` while no task is registered. */
  datatype IrqRoute = IrqRoute(receiver: nat, pending: bool)

  /** A service as boot lists it; the address space built for it is given, not constructed. */
  datatype ServiceDef = ServiceDef(prio: byte, slot: nat, caps: CapTable, root: u64, entryVa: u64, stackTopVa: u64)

  /** What boot fixes: the service table, the mapped user region, the status word of fresh user frames. */
  datatype Config = Config(services: seq<ServiceDef>, regionStart: nat, regionEnd: nat, userStatus: u64)

  datatype Status = Live | IdleHalt | PoweredOff | Panicked

  /** What the kernel did with messages, oldest first. `Copied` is a direct write of a sender-first message. */
  datatype Note =
    | Staged(tid: Tid, msg: PendingMsg)
    | Delivered(tid: Tid, msg: PendingMsg)
    | Dropped(tid: Tid, msg: PendingMsg)
    | Copied(tid: Tid, from: Tid, msg: PendingMsg)
    | IrqGiven(dev: DevId, tid: Tid)

  type Tasks = t: seq<Tcb> | |t| == MAX_TASKS witness seq(MAX_TASKS, _ => EmptyTcb())
  type Endpoints = e: seq<Ep> | |e| == NUM_ENDPOINTS witness seq(NUM_ENDPOINTS, _ => Idle)
  type Buffer = b: seq<byte> | |b| == IPC_MSG_MAX witness seq(IPC_MSG_MAX, _ => 0)
  type Routes = r: seq<IrqRoute> | |r| == NUM_DEVICES witness [IrqRoute(MAX_TASKS, false), IrqRoute(MAX_TASKS, false)]

  datatype Kernel = Kernel(
    tasks: Tasks, eps: Endpoints, kmsg: Buffer, routes: Routes,
    current: Tid, miss: nat, ticks: nat, delivered: nat,
    frame: TrapFrame, status: Status, journal: seq<Note>, cfg: Config)

  function ZeroFrame(): TrapFrame {
    TrapFrame(0, 0, 0, 0, 0, 0, 0, seq(26, _ => 0))
  }

  function EmptyTcb(): Tcb {
    Tcb(Empty, 0, 0, ZeroFrame(), None, seq(CAPS_PER_TASK, _ => None), 0, 0)
  }

  /** The frame a fresh user task starts from. */
  function NewUserFrame(cfg: Config, entryVa: u64, stackTopVa: u64): TrapFrame {
    ZeroFrame().(sp := stackTopVa, sepc := entryVa, sstatus := cfg.userStatus)
  }

  /** A signed result as the 64-bit word put in a0. */
  function Word(value: int): u64 { value % TWO64 }

  function IrqEndpoint(dev: DevId): EpId { if dev == 0 then 8 else 10 }

  // ---- Checks ---------------------------------------------------------------

  predicate ValidUserBuf(va: nat, len: nat) {
    len <= IPC_MSG_MAX && USER_DATA_VA <= va && va + len <= USER_DATA_END
  }

  predicate InReadableWindow(cfg: Config, va: nat, len: nat) {
    (USER_DATA_VA <= va && va + len <= USER_DATA_END) || (cfg.regionStart <= va && va + len <= cfg.regionEnd)
  }

  predicate HasRights(cap: Cap, required: bv16) { cap.rights & required == required }

  datatype CapCheck = Granted(id: nat) | InvalidCap | WrongType | InsufficientRights

  function EndpointCap(t: Tcb, index: nat, required: bv16): CapCheck {
    if index >= CAPS_PER_TASK then InvalidCap
    else match t.caps[index]
      case None => InvalidCap
      case Some(c) =>
        if c.otype != EndpointObject then WrongType
        else if !HasRights(c, required) then InsufficientRights
        else Granted(c.objectId)
  }

  function DeviceCap(t: Tcb, index: nat, required: bv16): CapCheck {
    if index >= CAPS_PER_TASK then InvalidCap
    else match t.caps[index]
      case None => InvalidCap
      case Some(c) =>
        if c.otype != DeviceObject then WrongType
        else if c.objectId >= NUM_DEVICES then InvalidCap
        else if !HasRights(c, required) then InsufficientRights
        else Granted(c.objectId)
  }

  function DenyCode(check: CapCheck): int {
    match check
    case InvalidCap => ERR_INVALID_CAP
    case WrongType => ERR_WRONG_OBJECT_TYPE
    case InsufficientRights => ERR_INSUFFICIENT_RIGHTS
    case Granted(_) => 0
  }

  predicate HoldsCap(t: Tcb, otype: ObjectType, required: bv16) {
    exists i | 0 <= i < CAPS_PER_TASK :: t.caps[i].Some? && t.caps[i].value.otype == otype && HasRights(t.caps[i].value, required)
  }

  predicate Controls(t: Tcb) { HoldsCap(t, ControlObject, RIGHT_CONTROL) }

  // ---- Small updates --------------------------------------------------------

  function Cur(k: Kernel): Tcb { k.tasks[k.current] }

  function SetTask(k: Kernel, t: Tid, tcb: Tcb): Kernel { k.(tasks := k.tasks[t := tcb]) }
  function SetState(k: Kernel, t: Tid, s: RtState): Kernel { SetTask(k, t, k.tasks[t].(state := s)) }
  function SetEp(k: Kernel, e: EpId, ep: Ep): Kernel { k.(eps := k.eps[e := ep]) }
  function SetRoute(k: Kernel, d: DevId, r: IrqRoute): Kernel { k.(routes := k.routes[d := r]) }
  function Record(k: Kernel, n: Note): Kernel { k.(journal := k.journal + [n]) }
  function Return(k: Kernel, value: int): Kernel { k.(frame := k.frame.(a0 := Word(value))) }

  /** Leave a message with a parked receiver and make it ready. */
  function Stage(k: Kernel, t: Tid, msg: PendingMsg): Kernel {
    Record(SetTask(k, t, k.tasks[t].(pending := Some(msg), state := Ready)), Staged(t, msg))
  }

  /** Discard what was staged for a task that is killed or re-armed. */
  function Discard(k: Kernel, t: Tid): Kernel {
    match k.tasks[t].pending
    case None => k
    case Some(msg) => Record(SetTask(k, t, k.tasks[t].(pending := None)), Dropped(t, msg))
  }

  predicate ParkedAs(ep: Ep, t: Tid) { !ep.Idle? && ep.tid == t }

  function ClearedEps(eps: Endpoints, t: Tid): Endpoints {
    seq(NUM_ENDPOINTS, e requires 0 <= e < NUM_ENDPOINTS => if ParkedAs(eps[e], t) then Idle else eps[e])
  }

  function DroppedRoutes(routes: Routes, t: Tid): Routes {
    seq(NUM_DEVICES, d requires 0 <= d < NUM_DEVICES =>
      if routes[d].receiver == t then routes[d].(pending := false) else routes[d])
  }

  // ---- Scheduling -----------------------------------------------------------

  function Slot(cur: Tid, step: nat): Tid { (cur + step) % MAX_TASKS }

  /** The best Ready slot among the first `n` after `cur`, earliest first among equals. */
  function BestOf(tasks: Tasks, cur: Tid, n: nat): Option<Tid> {
    if n == 0 then None
    else
      var best := BestOf(tasks, cur, n - 1);
      var idx := Slot(cur, n);
      if tasks[idx].state != Ready then best
      else if best.None? || tasks[idx].prio > tasks[best.value].prio then Some(idx)
      else best
  }

  function SelectHighest(tasks: Tasks, cur: Tid): Option<Tid> { BestOf(tasks, cur, MAX_TASKS) }

  /** Make `next` run: load its frame and complete its deferred delivery. */
  function Resume(k: Kernel, next: Tid): Kernel {
    var t := k.tasks[next];
    var k1 := SetTask(k, next, t.(state := Running, pending := None)).(current := next, miss := 0, frame := t.frame);
    match t.pending
    case None => k1
    case Some(msg) => Return(Record(k1.(delivered := k.delivered + 1), Delivered(next, msg)), |msg.data|)
  }

  /** Pick the next task after the current one stopped, or halt. */
  function Reschedule(k: Kernel): Kernel {
    match SelectHighest(k.tasks, k.current)
    case Some(next) => Resume(k, next)
    case None => k.(status := IdleHalt)
  }

  function SaveCurrent(k: Kernel, s: RtState): Kernel {
    SetTask(k, k.current, Cur(k).(frame := k.frame, state := s))
  }

  function Yield(k: Kernel): Kernel { Reschedule(SaveCurrent(k, Ready)) }
  function Exit(k: Kernel): Kernel { Reschedule(SetState(k, k.current, Killed)) }
  function BlockAndSwitch(k: Kernel): Kernel { Reschedule(SaveCurrent(k, Blocked)) }

  function Preempt(k: Kernel): Kernel {
    match SelectHighest(k.tasks, k.current)
    case None => k
    case Some(next) =>
      if next == k.current || k.tasks[next].prio <= Cur(k).prio then k
      else Resume(SaveCurrent(k, Ready), next)
  }

  // ---- Faults ---------------------------------------------------------------

  /** Hand a one-byte notification to whoever is parked receiving on `e`. */
  function NotifyEndpoint(k: Kernel, e: EpId, code: byte): Kernel {
    match k.eps[e]
    case ReceiverWaiting(tid, dst, cap) =>
      var k1 := if cap >= 1 && ValidUserBuf(dst, 1) then Stage(k, tid, PendingMsg(dst, [code])) else k;
      SetEp(k1, e, Idle)
    case _ => k
  }

  function DropIrqs(k: Kernel, t: Tid): Kernel { k.(routes := DroppedRoutes(k.routes, t)) }

  /** Contain a fault of the running task: mark it, drop its device events, notify, reschedule. */
  function ContainFault(k: Kernel): Kernel {
    var k1 := DropIrqs(SetState(k, k.current, Faulted), k.current);
    var k2 := NotifyEndpoint(NotifyEndpoint(k1, EP_FAULT, FAULT_CODE_WATCHDOG), EP_EVENT, FAULT_CODE_WATCHDOG);
    Reschedule(k2)
  }

  /** A timer interrupt: the watchdog first, then preemption. */
  function Tick(k: Kernel): Kernel {
    var k1 := k.(ticks := k.ticks + 1, miss := k.miss + 1);
    if k1.miss <= WATCHDOG_WINDOW then Preempt(k1) else ContainFault(k1)
  }

  // ---- IPC ------------------------------------------------------------------

  /** The bytes the sender's buffer holds now. */
  function UserBytes(mem: nat -> byte, va: nat, len: nat): seq<byte> {
    seq(len, i requires 0 <= i < len => mem(va + i))
  }

  function Overlay(kmsg: Buffer, bytes: seq<byte>): Buffer
    requires |bytes| <= IPC_MSG_MAX
  {
    bytes + kmsg[|bytes|..]
  }

  /** A receiver was parked: stage the message, or wake it with an error if it does not fit. */
  function SendToReceiver(k: Kernel, e: EpId, len: nat): Kernel
    requires k.eps[e].ReceiverWaiting? && len <= IPC_MSG_MAX
  {
    var ep := k.eps[e];
    var k1 :=
      if len <= ep.cap && ValidUserBuf(ep.dst, len) then Stage(k, ep.tid, PendingMsg(ep.dst, k.kmsg[..len]))
      else SetTask(k, ep.tid, k.tasks[ep.tid].(frame := k.tasks[ep.tid].frame.(a0 := Word(ERR_MSG_TOO_LARGE)), state := Ready));
    Return(SetEp(k1, e, Idle), len)
  }

  /** A send that passed its checks: take the bytes, then meet whoever is at the endpoint. */
  function SendOn(k: Kernel, id: nat, mem: nat -> byte): Kernel
    requires k.frame.a2 <= IPC_MSG_MAX
  {
    var len := k.frame.a2;
    var k1 := k.(kmsg := Overlay(k.kmsg, UserBytes(mem, k.frame.a1, len)));
    if id >= NUM_ENDPOINTS then k1.(status := Panicked)
    else match k.eps[id]
      case ReceiverWaiting(_, _, _) => SendToReceiver(k1, id, len)
      case Idle => BlockAndSwitch(SetEp(k1, id, SenderWaiting(k.current, len)))
      case SenderWaiting(_, _) => Return(k1, ERR_INVALID_ARG)
  }

  function IpcSend(k: Kernel, mem: nat -> byte): Kernel {
    match EndpointCap(Cur(k), k.frame.a0, RIGHT_SEND)
    case Granted(id) =>
      if k.frame.a2 > IPC_MSG_MAX then Return(k, ERR_MSG_TOO_LARGE)
      else if !InReadableWindow(k.cfg, k.frame.a1, k.frame.a2) then Return(k, ERR_INVALID_ARG)
      else SendOn(k, id, mem)
    case denied => Return(k, DenyCode(denied))
  }

  /** The first device routed to `e` whose pending event is for `t`. */
  function IrqPendingFor(routes: Routes, e: nat, t: Tid): Option<DevId> {
    if IrqEndpoint(0) == e && routes[0].pending && routes[0].receiver == t then Some(0)
    else if IrqEndpoint(1) == e && routes[1].pending && routes[1].receiver == t then Some(1)
    else None
  }

  /** A sender was parked: copy its staged bytes to the running receiver and wake it. */
  function RecvFromSender(k: Kernel, e: EpId, dst: u64): Kernel
    requires k.eps[e].SenderWaiting? && k.eps[e].len <= IPC_MSG_MAX
  {
    var ep := k.eps[e];
    var k1 := SetTask(k, ep.tid, k.tasks[ep.tid].(state := Ready, frame := k.tasks[ep.tid].frame.(a0 := Word(ep.len))));
    Return(Record(SetEp(k1, e, Idle), Copied(k.current, ep.tid, PendingMsg(dst, k.kmsg[..ep.len]))), ep.len)
  }

  /** Take the pending event of `dev` into the running receiver's buffer. */
  function RecvIrq(k: Kernel, dev: DevId): Kernel {
    if k.frame.a2 < 1 || !ValidUserBuf(k.frame.a1, 1) then Return(k, ERR_INVALID_ARG)
    else Return(Record(SetRoute(k, dev, IrqRoute(k.current, false)), IrqGiven(dev, k.current)), 1)
  }

  /** A receive that passed its capability check and has no device event waiting. */
  function RecvOn(k: Kernel, id: nat): Kernel {
    var dst, cap := k.frame.a1, k.frame.a2;
    if id >= NUM_ENDPOINTS then k.(status := Panicked)
    else match k.eps[id]
      case SenderWaiting(_, len) =>
        if len > cap || !ValidUserBuf(dst, len) then Return(k, ERR_INVALID_ARG) else RecvFromSender(k, id, dst)
      case Idle =>
        if cap > IPC_MSG_MAX || !ValidUserBuf(dst, cap) then Return(k, ERR_INVALID_ARG)
        else BlockAndSwitch(SetEp(k, id, ReceiverWaiting(k.current, dst, cap)))
      case ReceiverWaiting(_, _, _) => Return(k, ERR_INVALID_ARG)
  }

  function IpcRecv(k: Kernel): Kernel {
    match EndpointCap(Cur(k), k.frame.a0, RIGHT_RECV)
    case Granted(id) =>
      var irq := IrqPendingFor(k.routes, id, k.current);
      if irq.Some? then RecvIrq(k, irq.value) else RecvOn(k, id)
    case denied => Return(k, DenyCode(denied))
  }

  // ---- IRQ events -----------------------------------------------------------

  predicate Dead(tasks: Tasks, receiver: nat) {
    receiver >= MAX_TASKS || tasks[receiver].state in {Faulted, Killed, Empty}
  }

  /** Raise a device's event: deliver it, hold it pending, or drop it. */
  function IrqRaise(k: Kernel, dev: DevId): Kernel {
    var route, e := k.routes[dev], IrqEndpoint(dev);
    if Dead(k.tasks, route.receiver) then Return(SetRoute(k, dev, route.(pending := false)), ERR_NO_SLOT)
    else match k.eps[e]
      case ReceiverWaiting(tid, dst, cap) =>
        if tid == route.receiver && cap >= 1 && ValidUserBuf(dst, 1) then
          Return(SetEp(Record(Stage(k, tid, PendingMsg(dst, [IRQ_EVENT_CODE])), IrqGiven(dev, tid)), e, Idle), 0)
        else Return(k, ERR_NO_SLOT)
      case _ => Return(SetRoute(k, dev, route.(pending := true)), IRQ_PENDING)
  }

  function SysIrqRaise(k: Kernel): Kernel {
    match DeviceCap(Cur(k), k.frame.a0, DEV_RIGHT_DRIVER_CONTROL)
    case Granted(dev) => IrqRaise(k, dev)
    case denied => Return(k, DenyCode(denied))
  }

  // ---- Task control ---------------------------------------------------------

  /** Register a starting task as receiver of the devices its table grants it. */
  function GrantedRoutes(routes: Routes, caps: CapTable, slot: Tid, n: nat): Routes
    requires n <= CAPS_PER_TASK
  {
    if n == 0 then routes
    else
      var r := GrantedRoutes(routes, caps, slot, n - 1);
      match caps[n - 1]
      case None => r
      case Some(c) =>
        if c.otype == DeviceObject && c.objectId < NUM_DEVICES && c.rights & DEV_RIGHT_IRQ_RECEIVE != 0
        then r[c.objectId := r[c.objectId].(receiver := slot)]
        else r
  }

  /** Reset a task, stopped or live, to its initial frame; what was staged or parked for it is gone. */
  function Rearm(k: Kernel, t: Tid): Kernel {
    var k1 := Discard(k, t);
    var tcb := k1.tasks[t];
    SetTask(k1, t, tcb.(frame := NewUserFrame(k.cfg, tcb.entryVa, tcb.stackTopVa), state := Ready))
      .(eps := ClearedEps(k1.eps, t))
  }

  function FirstStart(k: Kernel, def: ServiceDef): Kernel
    requires def.slot < MAX_TASKS
  {
    var tcb := Tcb(Ready, def.prio, def.root, NewUserFrame(k.cfg, def.entryVa, def.stackTopVa), None,
                   def.caps, def.entryVa, def.stackTopVa);
    SetTask(k, def.slot, tcb).(routes := GrantedRoutes(k.routes, def.caps, def.slot, CAPS_PER_TASK))
  }

  function SysTaskStart(k: Kernel): Kernel {
    if !Controls(Cur(k)) then Return(k, ERR_INVALID_CAP)
    else if k.frame.a0 >= |k.cfg.services| then Return(k, ERR_INVALID_ARG)
    else
      var def := k.cfg.services[k.frame.a0];
      if def.slot >= MAX_TASKS then k.(status := Panicked)
      else match k.tasks[def.slot].state
        case Empty => Return(FirstStart(k, def), def.slot)
        case Killed | Faulted => Return(Rearm(k, def.slot), def.slot)
        case _ => Return(k, ERR_NO_SLOT)
  }

  function Kill(k: Kernel, t: Tid): Kernel {
    DropIrqs(SetState(Discard(k, t), t, Killed).(eps := ClearedEps(k.eps, t)), t)
  }

  function SysTaskKill(k: Kernel): Kernel {
    var slot := k.frame.a0;
    if !Controls(Cur(k)) then Return(k, ERR_INVALID_CAP)
    else if slot >= MAX_TASKS || k.tasks[slot].state == Empty then Return(k, ERR_INVALID_ARG)
    else if slot == k.current then Reschedule(Kill(k, slot))
    else Return(Kill(k, slot), 0)
  }

  function SysTaskRestart(k: Kernel): Kernel {
    var slot := k.frame.a0;
    if !Controls(Cur(k)) then Return(k, ERR_INVALID_CAP)
    else if slot >= MAX_TASKS || slot == k.current || k.tasks[slot].state == Empty || k.tasks[slot].entryVa == 0
    then Return(k, ERR_INVALID_ARG)
    else Return(Rearm(k, slot), 0)
  }

  function SysShutdown(k: Kernel): Kernel {
    if !Controls(Cur(k)) then Return(k, ERR_INVALID_CAP)
    else k.(status := PoweredOff)
  }

  // ---- Events ---------------------------------------------------------------

  /**
   A trap of the running task, with the registers it trapped with. `mem` is what
   its memory reads as; `result` is what any other syscall leaves in a0.
   */
  datatype Event =
    | Syscall(num: nat, frame: TrapFrame, mem: nat -> byte, result: int)
    | TimerTick(frame: TrapFrame)
    | UserFault(frame: TrapFrame)

  /** Every syscall, known or not, resets the miss count. */
  function OnSyscall(k: Kernel, num: nat, mem: nat -> byte, result: int): Kernel {
    var k := k.(miss := 0);
    if num == SYS_YIELD then Yield(k)
    else if num == SYS_EXIT then Exit(k)
    else if num == SYS_SEND then IpcSend(k, mem)
    else if num == SYS_RECV then IpcRecv(k)
    else if num == SYS_TASK_START then SysTaskStart(k)
    else if num == SYS_TASK_KILL then SysTaskKill(k)
    else if num == SYS_TASK_RESTART then SysTaskRestart(k)
    else if num == SYS_SHUTDOWN then SysShutdown(k)
    else if num == SYS_IRQ_RAISE then SysIrqRaise(k)
    else Return(k, result)
  }

  function Step(k: Kernel, ev: Event): Kernel {
    if !k.status.Live? then k
    else match ev
      case Syscall(num, frame, mem, result) => OnSyscall(k.(frame := frame), num, mem, result)
      case TimerTick(frame) => Tick(k.(frame := frame))
      case UserFault(frame) => ContainFault(k.(frame := frame))
  }

  function Run(k: Kernel, evs: seq<Event>): Kernel
    decreases |evs|
  {
    if evs == [] then k else Run(Step(k, evs[0]), evs[1..])
  }
}
