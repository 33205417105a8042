/** Booted machines and short runs in which the dispatcher keeps less than one might expect. */
module DispatchExamples {
  import opened Base
  import opened Dispatch
  import opened DispatchInvariant
  import opened DispatchAuthority
  import opened DispatchProvenance
  import opened DispatchStaging
  import opened DispatchStops

  /** A syscall with a0, the usual buffer and a length. */
  function Call(num: nat, a0: u64, len: u64): Event {
    Syscall(num, ZeroFrame().(a0 := a0, a1 := USER_DATA_VA, a2 := len), _ => 0, 0)
  }

  function TwoCaps(c: Cap, d: Cap): CapTable {
    seq(CAPS_PER_TASK, i => if i == 0 then Some(c) else if i == 1 then Some(d) else None)
  }

  lemma {:induction false} RunSplits(k: Kernel, evs: seq<Event>, more: seq<Event>)
    ensures Run(k, evs + more) == Run(Run(k, evs), more)
    decreases |evs|
  {
    hide Step;
    if evs == [] {
      assert evs + more == more;
    } else {
      assert (evs + more)[1..] == evs[1..] + more;
      RunSplits(Step(k, evs[0]), evs[1..], more);
    }
  }

  lemma RunSnoc(k: Kernel, evs: seq<Event>, ev: Event)
    ensures Run(k, evs + [ev]) == Step(Run(k, evs), ev)
  {
    hide Step;
    RunSplits(k, evs, [ev]);
    var r := Run(k, evs);
    assert [ev][1..] == [];
    assert Run(r, [ev]) == Run(Step(r, ev), []);
  }

  // ---- A manager and its driver ---------------------------------------------

  function ManagerCaps(): CapTable {
    TwoCaps(Cap(DeviceObject, 0, DEV_RIGHT_DRIVER_CONTROL), Cap(ControlObject, 0, RIGHT_CONTROL))
  }

  function DriverCaps(): CapTable {
    TwoCaps(Cap(EndpointObject, 8, RIGHT_RECV), Cap(DeviceObject, 0, DEV_RIGHT_IRQ_RECEIVE))
  }

  /** Task 0 controls tasks and device 0; service 0 is the driver of device 0, in slot 1. */
  function Managed(): Kernel {
    Kernel(
      [EmptyTcb().(state := Running, prio := 1, caps := ManagerCaps())] + seq(15, _ => EmptyTcb()),
      seq(NUM_ENDPOINTS, _ => Idle), seq(IPC_MSG_MAX, _ => 0), [IrqRoute(MAX_TASKS, false), IrqRoute(MAX_TASKS, false)],
      0, 0, 0, 0, ZeroFrame(), Live, [], ManagedConfig())
  }

  function ManagedConfig(): Config { Config([ServiceDef(1, 1, DriverCaps(), 0, 4096, 8192)], 0, 0, 0) }

  /** The parts of such a machine that its runs turn on. */
  ghost predicate Shape(k: Kernel, cur: Tid, manager: RtState, driver: RtState, route: IrqRoute, ep: Ep) {
    && k.status == Live && k.current == cur && k.cfg == ManagedConfig()
    && k.tasks[0].state == manager && k.tasks[0].caps == ManagerCaps() && k.tasks[0].prio == 1
    && k.tasks[1].state == driver && k.tasks[0].pending == None && k.tasks[1].pending == None
    && (driver != Empty ==> k.tasks[1].caps == DriverCaps() && k.tasks[1].prio == 1)
    && (forall t: Tid :: t > 1 ==> k.tasks[t].state == Empty)
    && k.routes[0] == route && !k.routes[1].pending && k.routes[1].receiver == MAX_TASKS
    && k.eps[8] == ep && (forall e: EpId :: e != 8 ==> k.eps[e] == Idle)
  }

  lemma ManagedBooted()
    ensures Booted(Managed()) && Shape(Managed(), 0, Running, Empty, IrqRoute(MAX_TASKS, false), Idle)
  {
    assert forall i | 0 <= i < 1 :: CapsOk(ManagedConfig().services[i].caps);
  }

  lemma ManagerControls(k: Kernel)
    requires k.tasks[k.current].caps == ManagerCaps()
    ensures Controls(Cur(k)) && DeviceCap(Cur(k), 0, DEV_RIGHT_DRIVER_CONTROL) == Granted(0)
  {
    var c := Cur(k).caps;
    assert c[1] == Some(Cap(ControlObject, 0, RIGHT_CONTROL)) && HasRights(c[1].value, RIGHT_CONTROL);
    assert c[0] == Some(Cap(DeviceObject, 0, DEV_RIGHT_DRIVER_CONTROL)) && HasRights(c[0].value, DEV_RIGHT_DRIVER_CONTROL);
  }

  lemma {:induction false} OnlyTwoCaps(routes: Routes, c: Cap, d: Cap, slot: Tid, n: nat)
    requires 2 <= n <= CAPS_PER_TASK
    ensures GrantedRoutes(routes, TwoCaps(c, d), slot, n) == GrantedRoutes(routes, TwoCaps(c, d), slot, 2)
  {
    if n > 2 {
      OnlyTwoCaps(routes, c, d, slot, n - 1);
      assert TwoCaps(c, d)[n - 1] == None;
    }
  }

  lemma DriverRoutes(routes: Routes)
    ensures GrantedRoutes(routes, DriverCaps(), 1, CAPS_PER_TASK) == routes[0 := routes[0].(receiver := 1)]
  {
    var caps := DriverCaps();
    OnlyTwoCaps(routes, Cap(EndpointObject, 8, RIGHT_RECV), Cap(DeviceObject, 0, DEV_RIGHT_IRQ_RECEIVE), 1, CAPS_PER_TASK);
    assert caps[0] == Some(Cap(EndpointObject, 8, RIGHT_RECV)) && caps[1] == Some(Cap(DeviceObject, 0, DEV_RIGHT_IRQ_RECEIVE));
    assert GrantedRoutes(routes, caps, 1, 0) == routes;
    assert GrantedRoutes(routes, caps, 1, 1) == routes;
    assert DEV_RIGHT_IRQ_RECEIVE & DEV_RIGHT_IRQ_RECEIVE != 0;
  }

  lemma FirstStartStep(k: Kernel)
    requires Shape(k, 0, Running, Empty, IrqRoute(MAX_TASKS, false), Idle)
    ensures Shape(Step(k, Call(SYS_TASK_START, 0, 0)), 0, Running, Ready, IrqRoute(1, false), Idle)
    ensures Step(k, Call(SYS_TASK_START, 0, 0)).journal == k.journal
  {
    hide HoldsCap, GrantedRoutes;
    ManagerControls(k);
    ManagerControls(k.(frame := Call(SYS_TASK_START, 0, 0).frame).(miss := 0));
    DriverRoutes(k.routes);
  }

  lemma RestartStep(k: Kernel, route: IrqRoute)
    requires Shape(k, 0, Running, Killed, route, Idle)
    ensures Shape(Step(k, Call(SYS_TASK_START, 0, 0)), 0, Running, Ready, route, Idle)
    ensures Step(k, Call(SYS_TASK_START, 0, 0)).journal == k.journal
  {
    hide HoldsCap, GrantedRoutes;
    ManagerControls(k.(frame := Call(SYS_TASK_START, 0, 0).frame).(miss := 0));
  }

  lemma RaiseStep(k: Kernel)
    requires Shape(k, 0, Running, Ready, IrqRoute(1, false), Idle)
    ensures Shape(Step(k, Call(SYS_IRQ_RAISE, 0, 0)), 0, Running, Ready, IrqRoute(1, true), Idle)
    ensures Step(k, Call(SYS_IRQ_RAISE, 0, 0)).journal == k.journal
  {
    hide DeviceCap;
    ManagerControls(k.(frame := Call(SYS_IRQ_RAISE, 0, 0).frame).(miss := 0));
  }

  lemma YieldStep(k: Kernel, route: IrqRoute)
    requires Shape(k, 0, Running, Ready, route, Idle)
    ensures Shape(Step(k, Call(SYS_YIELD, 0, 0)), 1, Ready, Running, route, Idle)
    ensures Step(k, Call(SYS_YIELD, 0, 0)).journal == k.journal
  {
    hide BestOf;
    var mid := SaveCurrent(k.(frame := Call(SYS_YIELD, 0, 0).frame, miss := 0), Ready);
    assert forall t: Tid :: IsReady(mid.tasks, t) ==> t in {0, 1};
    Picks(mid.tasks, 0, 1);
  }

  lemma ExitStep(k: Kernel, route: IrqRoute)
    requires Shape(k, 1, Ready, Running, route, Idle)
    ensures Shape(Step(k, Call(SYS_EXIT, 0, 0)), 0, Running, Killed, route, Idle)
    ensures Step(k, Call(SYS_EXIT, 0, 0)).journal == k.journal
  {
    hide BestOf;
    var mid := SetState(k.(frame := Call(SYS_EXIT, 0, 0).frame, miss := 0), 1, Killed);
    assert forall t: Tid :: IsReady(mid.tasks, t) ==> t == 0;
    Picks(mid.tasks, 1, 0);
  }

  lemma DriverReceives(k: Kernel)
    requires k.tasks[k.current].caps == DriverCaps()
    ensures EndpointCap(Cur(k), 0, RIGHT_RECV) == Granted(8)
  {
    assert Cur(k).caps[0] == Some(Cap(EndpointObject, 8, RIGHT_RECV));
  }

  lemma TakeStep(k: Kernel)
    requires Shape(k, 1, Ready, Running, IrqRoute(1, true), Idle)
    ensures Step(k, Call(SYS_RECV, 0, 1)).journal == k.journal + [IrqGiven(0, 1)]
  {
    hide EndpointCap;
    DriverReceives(k.(frame := Call(SYS_RECV, 0, 1).frame).(miss := 0));
  }

  /** Start, raise, let the driver run, exit, start again, let it run, receive. */
  function StaleRun(): seq<Event> {
    [] + [Call(SYS_TASK_START, 0, 0)] + [Call(SYS_IRQ_RAISE, 0, 0)] + [Call(SYS_YIELD, 0, 0)] + [Call(SYS_EXIT, 0, 0)]
    + [Call(SYS_TASK_START, 0, 0)] + [Call(SYS_YIELD, 0, 0)] + [Call(SYS_RECV, 0, 1)]
  }

  /** An event raised for a driver that exits is given to the driver's next life. */
  lemma ExitKeepsStaleEvent()
    ensures Booted(Managed())
    ensures Run(Managed(), StaleRun()).journal == [IrqGiven(0, 1)]
  {
    hide Step, Shape, Booted, Call, Managed;
    ManagedBooted();
    var k0 := Managed();
    assert k0.journal == [] by {
      ManagedJournal();
    }
    var e1, e2, e3, e4, e7 := Call(SYS_TASK_START, 0, 0), Call(SYS_IRQ_RAISE, 0, 0), Call(SYS_YIELD, 0, 0),
      Call(SYS_EXIT, 0, 0), Call(SYS_RECV, 0, 1);
    FirstStartStep(k0);
    RunSnoc(k0, [], e1);
    var r1 := [] + [e1];
    RaiseStep(Run(k0, r1));
    RunSnoc(k0, r1, e2);
    var r2 := r1 + [e2];
    YieldStep(Run(k0, r2), IrqRoute(1, true));
    RunSnoc(k0, r2, e3);
    var r3 := r2 + [e3];
    ExitStep(Run(k0, r3), IrqRoute(1, true));
    RunSnoc(k0, r3, e4);
    var r4 := r3 + [e4];
    RestartStep(Run(k0, r4), IrqRoute(1, true));
    RunSnoc(k0, r4, e1);
    var r5 := r4 + [e1];
    YieldStep(Run(k0, r5), IrqRoute(1, true));
    RunSnoc(k0, r5, e3);
    var r6 := r5 + [e3];
    TakeStep(Run(k0, r6));
    RunSnoc(k0, r6, e7);
    assert r6 + [e7] == StaleRun();
  }

  lemma ManagedJournal()
    ensures Managed().journal == []
  {
  }

  // ---- An event lost on a live receiver -------------------------------------

  lemma WaitStep(k: Kernel)
    requires Shape(k, 1, Ready, Running, IrqRoute(1, false), Idle)
    ensures Shape(Step(k, Call(SYS_RECV, 0, 0)), 0, Running, Blocked, IrqRoute(1, false), ReceiverWaiting(1, USER_DATA_VA, 0))
    ensures Step(k, Call(SYS_RECV, 0, 0)).journal == k.journal
  {
    hide BestOf, EndpointCap;
    var k1 := k.(frame := Call(SYS_RECV, 0, 0).frame, miss := 0);
    assert k.(frame := Call(SYS_RECV, 0, 0).frame).(miss := 0) == k1;
    DriverReceives(k1);
    var mid := SaveCurrent(SetEp(k1, 8, ReceiverWaiting(1, USER_DATA_VA, 0)), Blocked);
    assert forall t: Tid :: IsReady(mid.tasks, t) ==> t == 0;
    Picks(mid.tasks, 1, 0);
  }

  lemma LoseStep(k: Kernel)
    requires Shape(k, 0, Running, Blocked, IrqRoute(1, false), ReceiverWaiting(1, USER_DATA_VA, 0))
    ensures Shape(Step(k, Call(SYS_IRQ_RAISE, 0, 0)), 0, Running, Blocked, IrqRoute(1, false),
                  ReceiverWaiting(1, USER_DATA_VA, 0))
    ensures Step(k, Call(SYS_IRQ_RAISE, 0, 0)).journal == k.journal
    ensures Step(k, Call(SYS_IRQ_RAISE, 0, 0)).frame.a0 == Word(ERR_NO_SLOT)
  {
    hide DeviceCap;
    ManagerControls(k.(frame := Call(SYS_IRQ_RAISE, 0, 0).frame).(miss := 0));
  }

  /** Start, let the driver wait with no room, raise. */
  function LostRun(): seq<Event> {
    [] + [Call(SYS_TASK_START, 0, 0)] + [Call(SYS_YIELD, 0, 0)] + [Call(SYS_RECV, 0, 0)] + [Call(SYS_IRQ_RAISE, 0, 0)]
  }

  /** The registered driver is alive and waiting, and yet the event is neither given nor kept. */
  lemma LiveDriverLosesEvent()
    ensures Booted(Managed())
    ensures var k := Run(Managed(), LostRun());
            && k.routes[0] == IrqRoute(1, false) && k.tasks[1].state == Blocked && k.journal == []
            && k.frame.a0 == Word(ERR_NO_SLOT)
  {
    hide Step, Booted, Call, Managed, Word;
    ManagedBooted();
    ManagedJournal();
    var k0 := Managed();
    var e1, e2, e3, e4 := Call(SYS_TASK_START, 0, 0), Call(SYS_YIELD, 0, 0), Call(SYS_RECV, 0, 0), Call(SYS_IRQ_RAISE, 0, 0);
    FirstStartStep(k0);
    RunSnoc(k0, [], e1);
    var r1 := [] + [e1];
    YieldStep(Run(k0, r1), IrqRoute(1, false));
    RunSnoc(k0, r1, e2);
    var r2 := r1 + [e2];
    WaitStep(Run(k0, r2));
    RunSnoc(k0, r2, e3);
    var r3 := r2 + [e3];
    LoseStep(Run(k0, r3));
    RunSnoc(k0, r3, e4);
    assert r3 + [e4] == LostRun();
  }

  // ---- A stranded receiver --------------------------------------------------

  /** Task 0 may receive fault notices; tasks 1 and 2 only run. */
  function Watched(): Kernel {
    Kernel(
      [DemoTask(Running, Cap(EndpointObject, EP_FAULT, RIGHT_RECV)), EmptyTcb().(state := Ready, prio := 1),
       EmptyTcb().(state := Ready, prio := 1)] + seq(13, _ => EmptyTcb()),
      seq(NUM_ENDPOINTS, _ => Idle), seq(IPC_MSG_MAX, _ => 0), [IrqRoute(MAX_TASKS, false), IrqRoute(MAX_TASKS, false)],
      0, 0, 0, 0, ZeroFrame(), Live, [], Config([], 0, 0, 0))
  }

  lemma WatchedBooted()
    ensures Booted(Watched())
  {
  }

  lemma WatcherWaits() returns (k1: Kernel)
    ensures k1 == Step(Watched(), Call(SYS_RECV, 0, 0))
    ensures k1.status == Live && k1.current == 1
    ensures k1.eps[EP_FAULT] == ReceiverWaiting(0, USER_DATA_VA, 0) && forall e: EpId :: e != EP_FAULT ==> k1.eps[e] == Idle
    ensures k1.tasks[0].state == Blocked && k1.tasks[1].state == Running && k1.tasks[2].state == Ready
    ensures k1.tasks[2].pending == None && forall t: Tid :: t > 2 ==> k1.tasks[t].state == Empty
  {
    hide BestOf;
    var k := Watched().(frame := Call(SYS_RECV, 0, 0).frame, miss := 0);
    assert Cur(k).caps[0] == Some(Cap(EndpointObject, EP_FAULT, RIGHT_RECV));
    assert EndpointCap(Cur(k), 0, RIGHT_RECV) == Granted(EP_FAULT);
    var mid := SaveCurrent(SetEp(k, EP_FAULT, ReceiverWaiting(0, USER_DATA_VA, 0)), Blocked);
    assert forall t: Tid :: IsReady(mid.tasks, t) ==> t in {1, 2};
    Picks(mid.tasks, 0, 1);
    k1 := Step(Watched(), Call(SYS_RECV, 0, 0));
  }

  lemma NeighbourFaults(k1: Kernel)
    requires k1.status == Live && k1.current == 1
    requires k1.eps[EP_FAULT] == ReceiverWaiting(0, USER_DATA_VA, 0) && forall e: EpId :: e != EP_FAULT ==> k1.eps[e] == Idle
    requires k1.tasks[0].state == Blocked && k1.tasks[1].state == Running && k1.tasks[2].state == Ready
    requires k1.tasks[2].pending == None && forall t: Tid :: t > 2 ==> k1.tasks[t].state == Empty
    ensures Step(k1, UserFault(ZeroFrame())).status == Live && Stranded(Step(k1, UserFault(ZeroFrame())), 0)
  {
    hide BestOf, DroppedRoutes;
    var k2 := DropIrqs(SetState(k1.(frame := ZeroFrame()), 1, Faulted), 1);
    var mid := SetEp(k2, EP_FAULT, Idle);
    assert NotifyEndpoint(NotifyEndpoint(k2, EP_FAULT, FAULT_CODE_WATCHDOG), EP_EVENT, FAULT_CODE_WATCHDOG) == mid;
    assert forall t: Tid :: IsReady(mid.tasks, t) ==> t == 2;
    Picks(mid.tasks, 1, 2);
  }

  /**
   The receiver of fault notices waits with no room, a neighbour faults, and the
   receiver is left blocked and parked nowhere on a machine that runs on; it stays
   so through every run without task control over it.
   */
  lemma WatcherIsStranded(evs: seq<Event>)
    requires LeftAlone(Run(Watched(), [Call(SYS_RECV, 0, 0), UserFault(ZeroFrame())]), evs, 0)
    ensures Booted(Watched())
    ensures var k := Run(Watched(), [Call(SYS_RECV, 0, 0), UserFault(ZeroFrame())]);
            k.status == Live && Stranded(k, 0) && Stranded(Run(k, evs), 0)
  {
    hide Step, Booted, Call, Watched, ZeroFrame, Inv, LeftAlone;
    WatchedBooted();
    var k1 := WatcherWaits();
    NeighbourFaults(k1);
    var run := [Call(SYS_RECV, 0, 0), UserFault(ZeroFrame())];
    RunSnoc(Watched(), [], Call(SYS_RECV, 0, 0));
    RunSnoc(Watched(), [] + [Call(SYS_RECV, 0, 0)], UserFault(ZeroFrame()));
    assert [] + [Call(SYS_RECV, 0, 0)] + [UserFault(ZeroFrame())] == run;
    BootedInv(Watched());
    RunKeeps(Watched(), run);
    StrandedStays(Run(Watched(), run), evs, 0);
  }

  // ---- A message lost with success ------------------------------------------

  /** Task 0 may receive on endpoint 0, task 1 may send on it. */
  function Paired(): Kernel {
    Kernel(
      [DemoTask(Running, Cap(EndpointObject, 0, RIGHT_RECV)), DemoTask(Ready, Cap(EndpointObject, 0, RIGHT_SEND))]
      + seq(14, _ => EmptyTcb()),
      seq(NUM_ENDPOINTS, _ => Idle), seq(IPC_MSG_MAX, _ => 0), [IrqRoute(MAX_TASKS, false), IrqRoute(MAX_TASKS, false)],
      0, 0, 0, 0, ZeroFrame(), Live, [], Config([], 0, 0, 0))
  }

  lemma PairedBooted()
    ensures Booted(Paired())
  {
  }

  lemma ReceiverAsksForOne() returns (k1: Kernel)
    ensures k1 == Step(Paired(), Call(SYS_RECV, 0, 1))
    ensures k1.status == Live && k1.current == 1 && k1.journal == [] && k1.cfg == Paired().cfg
    ensures k1.eps[0] == ReceiverWaiting(0, USER_DATA_VA, 1) && k1.tasks[1].caps == Paired().tasks[1].caps
  {
    hide BestOf;
    var k := Paired().(frame := Call(SYS_RECV, 0, 1).frame, miss := 0);
    assert Cur(k).caps[0] == Some(Cap(EndpointObject, 0, RIGHT_RECV));
    assert EndpointCap(Cur(k), 0, RIGHT_RECV) == Granted(0);
    var mid := SaveCurrent(SetEp(k, 0, ReceiverWaiting(0, USER_DATA_VA, 1)), Blocked);
    assert forall t: Tid :: IsReady(mid.tasks, t) ==> t == 1;
    Picks(mid.tasks, 0, 1);
    k1 := Step(Paired(), Call(SYS_RECV, 0, 1));
  }

  lemma SenderSendsTwo(k1: Kernel)
    requires k1.current == 1 && k1.tasks[1].caps == Paired().tasks[1].caps && k1.cfg == Paired().cfg
    ensures SendsOn(k1, Call(SYS_SEND, 0, 2), 0) && Call(SYS_SEND, 0, 2).frame.a2 == 2
  {
    assert Cur(k1).caps[0] == Some(Cap(EndpointObject, 0, RIGHT_SEND));
    assert EndpointCap(Cur(k1), 0, RIGHT_SEND) == Granted(0);
  }

  /** The receiver asks for one byte, the sender sends two, is told two, and the message is nowhere. */
  lemma SendLosesMessage()
    ensures Booted(Paired())
    ensures var k := Run(Paired(), [Call(SYS_RECV, 0, 1), Call(SYS_SEND, 0, 2)]);
            && k.status == Live && k.current == 1 && k.frame.a0 == Word(2) && k.journal == []
            && k.tasks[0].pending == None && k.tasks[0].frame.a0 == Word(ERR_MSG_TOO_LARGE) && k.eps[0] == Idle
  {
    hide Step, Booted, Call, Paired, Word, Core, SendsOn;
    PairedBooted();
    var r, s := Call(SYS_RECV, 0, 1), Call(SYS_SEND, 0, 2);
    var k1 := ReceiverAsksForOne();
    SenderSendsTwo(k1);
    BootedInv(Paired());
    StepKeeps(Paired(), r);
    PassingSend(k1, s, 0);
    SendStaysLive(k1, s);
    RunSnoc(Paired(), [], r);
    RunSnoc(Paired(), [] + [r], s);
    assert [] + [r] + [s] == [r, s];
  }

  lemma SendStaysLive(k: Kernel, ev: Event)
    requires Inv(k) && k.status == Live && SendsOn(k, ev, 0) && k.eps[0].ReceiverWaiting?
    ensures Step(k, ev).status == Live
  {
    hide Word, EndpointCap, InReadableWindow, Core;
  }
}
