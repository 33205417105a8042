/**
 Where the dispatcher keeps less than one might expect, each with its exact
 condition: the one staging buffer of sender-first messages, the pending event
 of a driver that exits, the raised event that is lost, and the receiver that
 waits with no room.
 */
module DispatchStaging {
  import opened Base
  import opened Dispatch
  import opened DispatchInvariant
  import opened DispatchContext
  import opened DispatchProvenance
  import opened DispatchAuthority
  import opened DispatchStops

  // ---- The staging buffer ---------------------------------------------------

  predicate PassesSend(k: Kernel, ev: Event) {
    && k.status == Live && ev.Syscall?
    && EndpointCap(Cur(k), ev.frame.a0, RIGHT_SEND).Granted?
    && SendsOn(k, ev, EndpointCap(Cur(k), ev.frame.a0, RIGHT_SEND).id)
  }

  lemma RescheduleKeepsKmsg(k: Kernel)
    ensures Reschedule(k).kmsg == k.kmsg
  {
    hide BestOf;
  }

  /** The staging buffer changes only by a send that passes its checks, whatever endpoint it is on. */
  lemma KmsgStep(k: Kernel, ev: Event)
    ensures Step(k, ev).kmsg == if PassesSend(k, ev) then Overlay(k.kmsg, SentBytes(ev)) else k.kmsg
  {
    hide Reschedule, EndpointCap, InReadableWindow, HoldsCap, ClearedEps, Overlay, GrantedRoutes, DeviceCap, IrqPendingFor,
      SelectHighest, ValidUserBuf, DroppedRoutes;
    forall k1: Kernel
      ensures Reschedule(k1).kmsg == k1.kmsg
    {
      RescheduleKeepsKmsg(k1);
    }
  }

  /** The byte strings written over the staging buffer during a run, in order. */
  function Writes(k: Kernel, evs: seq<Event>): seq<seq<byte>>
    decreases |evs|
  {
    if evs == [] then []
    else (if PassesSend(k, evs[0]) then [SentBytes(evs[0])] else []) + Writes(Step(k, evs[0]), evs[1..])
  }

  /** The byte left at position `i` by writes over a buffer that had `b` there: the last write that reaches it. */
  function FinalByte(writes: seq<seq<byte>>, i: nat, b: byte): byte
    decreases |writes|
  {
    if writes == [] then b
    else FinalByte(writes[1..], i, if i < |writes[0]| then writes[0][i] else b)
  }

  lemma {:induction false} KmsgAfter(k: Kernel, evs: seq<Event>, i: nat)
    requires i < IPC_MSG_MAX
    ensures Run(k, evs).kmsg[i] == FinalByte(Writes(k, evs), i, k.kmsg[i])
    decreases |evs|
  {
    hide Step, EndpointCap, InReadableWindow;
    if evs != [] {
      KmsgStep(k, evs[0]);
      KmsgAfter(Step(k, evs[0]), evs[1..], i);
      var rest := Writes(Step(k, evs[0]), evs[1..]);
      if PassesSend(k, evs[0]) {
        assert ([SentBytes(evs[0])] + rest)[1..] == rest;
      } else {
        assert [] + rest == rest;
      }
    }
  }

  /** A sender parks with its bytes in the staging buffer. */
  lemma SenderParks(k: Kernel, ev: Event, e: EpId)
    requires Inv(k) && k.status == Live && SendsOn(k, ev, e) && k.eps[e].Idle?
    ensures Step(k, ev).eps[e] == SenderWaiting(k.current, ev.frame.a2)
    ensures Step(k, ev).kmsg[..ev.frame.a2] == SentBytes(ev)
  {
    hide SelectHighest;
  }

  /** The receive that meets a parked sender. */
  predicate Receives(k: Kernel, ev: Event, e: EpId) {
    && k.status == Live && ev.Syscall? && ev.num == SYS_RECV
    && EndpointCap(Cur(k), ev.frame.a0, RIGHT_RECV) == Granted(e)
    && IrqPendingFor(k.routes, e, k.current).None?
    && k.eps[e].SenderWaiting? && k.eps[e].len <= ev.frame.a2 && ValidUserBuf(ev.frame.a1, k.eps[e].len)
  }

  lemma ReceiverGets(k: Kernel, ev: Event, e: EpId)
    requires Receives(k, ev, e)
    ensures Step(k, ev).journal ==
            k.journal + [Copied(k.current, k.eps[e].tid, PendingMsg(ev.frame.a1, k.kmsg[..k.eps[e].len]))]
  {
  }

  /**
   Sender-first delivery, exactly: a message parked by `send` and taken by `recv`
   after any run in between reaches the receiver unchanged if and only if, at each
   of its positions, the last send in between that passed its checks and is long
   enough to reach the position put the same byte there. In particular it is exact
   when no send passed its checks in between.
   */
  lemma SenderFirstExactIff(k: Kernel, send: Event, e: EpId, evs: seq<Event>, recv: Event)
    requires Inv(k) && k.status == Live && SendsOn(k, send, e) && k.eps[e].Idle?
    requires Run(Step(k, send), evs).eps[e] == SenderWaiting(k.current, send.frame.a2)
    requires Receives(Run(Step(k, send), evs), recv, e)
    ensures var r := Run(Step(k, send), evs);
            var got := r.kmsg[..send.frame.a2];
            var writes := Writes(Step(k, send), evs);
            && Step(r, recv).journal == r.journal + [Copied(r.current, k.current, PendingMsg(recv.frame.a1, got))]
            && (got == SentBytes(send) <==>
                forall i | 0 <= i < send.frame.a2 :: FinalByte(writes, i, SentBytes(send)[i]) == SentBytes(send)[i])
            && (writes == [] ==> got == SentBytes(send))
  {
    hide Step, Run, Writes, EndpointCap, InReadableWindow;
    SenderParks(k, send, e);
    var k1 := Step(k, send);
    var r := Run(k1, evs);
    ReceiverGets(r, recv, e);
    forall i | 0 <= i < send.frame.a2
      ensures r.kmsg[..send.frame.a2][i] == FinalByte(Writes(k1, evs), i, SentBytes(send)[i])
    {
      KmsgAfter(k1, evs, i);
      assert k1.kmsg[..send.frame.a2][i] == k1.kmsg[i];
    }
  }

  // ---- A run that corrupts a parked message ----------------------------------

  lemma Picks(tasks: Tasks, cur: Tid, b: Tid)
    requires IsBest(tasks, cur, MAX_TASKS, b)
    ensures SelectHighest(tasks, cur) == Some(b)
  {
    hide BestOf;
    SelectHighestIsBest(tasks, cur);
    var s := SelectHighest(tasks, cur).value;
    assert Slot(cur, Distance(cur, s)) == s && Slot(cur, Distance(cur, b)) == b;
  }

  function DemoTask(state: RtState, cap: Cap): Tcb {
    EmptyTcb().(state := state, prio := 1, caps := seq(CAPS_PER_TASK, i => if i == 0 then Some(cap) else None))
  }

  /** Three tasks of equal priority: two senders, on endpoints 0 and 1, and a receiver on endpoint 0. */
  function Demo(): Kernel {
    Kernel(
      [DemoTask(Running, Cap(EndpointObject, 0, RIGHT_SEND)), DemoTask(Ready, Cap(EndpointObject, 1, RIGHT_SEND)),
       DemoTask(Ready, Cap(EndpointObject, 0, RIGHT_RECV))] + seq(13, _ => EmptyTcb()),
      seq(NUM_ENDPOINTS, _ => Idle), seq(IPC_MSG_MAX, _ => 0), [IrqRoute(MAX_TASKS, false), IrqRoute(MAX_TASKS, false)],
      0, 0, 0, 0, ZeroFrame(), Live, [], Config([], 0, 0, 0))
  }

  function OneByte(num: nat, b: byte): Event {
    Syscall(num, ZeroFrame().(a1 := USER_DATA_VA, a2 := 1), _ => b, 0)
  }

  lemma DemoBooted()
    ensures Booted(Demo())
  {
  }

  /** Task 0 parks the byte 1, task 1 parks the byte 2 on another endpoint, and the receiver of the first gets 2. */
  lemma SenderFirstCanCorrupt()
    ensures Booted(Demo())
    ensures Run(Demo(), [OneByte(SYS_SEND, 1), OneByte(SYS_SEND, 2), OneByte(SYS_RECV, 0)]).journal
            == [Copied(2, 0, PendingMsg(USER_DATA_VA, [2]))]
  {
    hide Step, Demo, OneByte, Booted, EndpointCap, IrqPendingFor, ZeroFrame;
    DemoBooted();
    var k1 := DemoFirst();
    var k2 := DemoSecond(k1);
    var evs := [OneByte(SYS_SEND, 1), OneByte(SYS_SEND, 2), OneByte(SYS_RECV, 0)];
    assert evs[1..] == [OneByte(SYS_SEND, 2), OneByte(SYS_RECV, 0)];
    assert evs[1..][1..] == [OneByte(SYS_RECV, 0)];
    var k3 := Step(k2, OneByte(SYS_RECV, 0));
    ReceiverGets(k2, OneByte(SYS_RECV, 0), 0);
    assert k3.journal == [Copied(2, 0, PendingMsg(USER_DATA_VA, [2]))];
    assert Run(k2, evs[1..][1..]) == Run(k3, []) == k3;
    assert Run(k1, evs[1..]) == Run(k2, evs[1..][1..]);
  }

  lemma DemoFirst() returns (k1: Kernel)
    ensures k1 == Step(Demo(), OneByte(SYS_SEND, 1))
    ensures k1.status == Live && k1.current == 1 && k1.journal == [] && k1.routes == Demo().routes && k1.cfg == Demo().cfg
    ensures k1.eps[0] == SenderWaiting(0, 1) && k1.eps[1] == Idle
    ensures k1.tasks[1] == Demo().tasks[1].(state := Running) && k1.tasks[2] == Demo().tasks[2]
    ensures forall t: Tid :: t !in {1, 2} ==> k1.tasks[t].state != Ready
  {
    hide BestOf;
    var k := Demo().(frame := OneByte(SYS_SEND, 1).frame, miss := 0);
    assert EndpointCap(Cur(k), 0, RIGHT_SEND) == Granted(0);
    var p := k.(kmsg := Overlay(k.kmsg, UserBytes(_ => 1, USER_DATA_VA, 1)));
    var mid := SaveCurrent(SetEp(p, 0, SenderWaiting(0, 1)), Blocked);
    assert forall t: Tid :: IsReady(mid.tasks, t) ==> t in {1, 2};
    Picks(mid.tasks, 0, 1);
    k1 := Step(Demo(), OneByte(SYS_SEND, 1));
  }

  lemma DemoSecond(k1: Kernel) returns (k2: Kernel)
    requires k1.status == Live && k1.current == 1 && k1.journal == [] && k1.routes == Demo().routes && k1.cfg == Demo().cfg
    requires k1.eps[0] == SenderWaiting(0, 1) && k1.eps[1] == Idle
    requires k1.tasks[1] == Demo().tasks[1].(state := Running) && k1.tasks[2] == Demo().tasks[2]
    requires forall t: Tid :: t !in {1, 2} ==> k1.tasks[t].state != Ready
    ensures k2 == Step(k1, OneByte(SYS_SEND, 2))
    ensures k2.status == Live && k2.current == 2 && k2.journal == []
    ensures Receives(k2, OneByte(SYS_RECV, 0), 0) && k2.eps[0] == SenderWaiting(0, 1) && k2.kmsg[..1] == [2]
    ensures OneByte(SYS_RECV, 0).frame.a1 == USER_DATA_VA
  {
    hide BestOf;
    var k := k1.(frame := OneByte(SYS_SEND, 2).frame, miss := 0);
    assert EndpointCap(Cur(k), 0, RIGHT_SEND) == Granted(1);
    var p := k.(kmsg := Overlay(k.kmsg, UserBytes(_ => 2, USER_DATA_VA, 1)));
    var mid := SaveCurrent(SetEp(p, 1, SenderWaiting(1, 1)), Blocked);
    assert forall t: Tid :: IsReady(mid.tasks, t) ==> t == 2;
    Picks(mid.tasks, 1, 2);
    k2 := Step(k1, OneByte(SYS_SEND, 2));
    assert EndpointCap(Cur(k2), 0, RIGHT_RECV) == Granted(0);
  }

  // ---- What becomes of a send -----------------------------------------------

  /** Each task but the caller is as before, and the caller only got a result. */
  predicate OnlyAnswered(k: Kernel, k': Kernel) {
    k'.tasks == k.tasks && k'.eps == k.eps && k'.journal == k.journal && k'.current == k.current && k'.status == k.status
  }

  /** A send that fails a check changes nothing and is answered with the error. */
  lemma RefusedSend(k: Kernel, ev: Event)
    requires Inv(k) && k.status == Live && ev.Syscall? && ev.num == SYS_SEND && !PassesSend(k, ev)
    ensures OnlyAnswered(k, Step(k, ev)) && Step(k, ev).kmsg == k.kmsg
    ensures var check := EndpointCap(Cur(k), ev.frame.a0, RIGHT_SEND);
            Step(k, ev).frame.a0 == Word(if !check.Granted? then DenyCode(check)
                                         else if ev.frame.a2 > IPC_MSG_MAX then ERR_MSG_TOO_LARGE
                                         else ERR_INVALID_ARG)
  {
    hide InReadableWindow, Word, Core;
  }

  /** What a send that passes its checks does, by what it finds on its endpoint. */
  lemma PassingSend(k: Kernel, ev: Event, e: EpId)
    requires Inv(k) && k.status == Live && SendsOn(k, ev, e)
    ensures var k', ep, len := Step(k, ev), k.eps[e], ev.frame.a2;
            && Extends(k, k')
            && (ep.ReceiverWaiting? ==>
                  && k'.frame.a0 == Word(len) && k'.eps == k.eps[e := Idle] && k'.current == k.current
                  && k'.tasks[ep.tid].state == Ready
                  && (if len <= ep.cap then News(k, k') == [Staged(ep.tid, PendingMsg(ep.dst, SentBytes(ev)))]
                      else News(k, k') == [] && k'.tasks[ep.tid].pending == None
                           && k'.tasks[ep.tid].frame.a0 == Word(ERR_MSG_TOO_LARGE)))
            && (ep.Idle? ==>
                  && k'.eps == k.eps[e := SenderWaiting(k.current, len)] && k'.tasks[k.current].state == Blocked
                  && k'.kmsg[..len] == SentBytes(ev))
            && (ep.SenderWaiting? ==> OnlyAnswered(k, k') && k'.frame.a0 == Word(ERR_INVALID_ARG))
  {
    hide Reschedule, Word, EndpointCap, InReadableWindow, Core;
    InvAt(k, e, 0);
    TaskAt(k, k.eps[e]);
    var k2 := k.(frame := ev.frame).(miss := 0);
    var k1 := k2.(kmsg := Overlay(k.kmsg, SentBytes(ev)));
    assert k1.kmsg[..ev.frame.a2] == SentBytes(ev);
    var mid := SaveCurrent(SetEp(k1, e, SenderWaiting(k.current, ev.frame.a2)), Blocked);
    RescheduleNews(mid);
    RescheduleKeepsAuthority(mid);
    RescheduleKeepsKmsg(mid);
    BlockedStays(mid);
  }

  lemma TaskAt(k: Kernel, ep: Ep)
    requires Core(k)
    ensures !ep.Idle? ==> TaskOk(k, ep.tid)
  {
  }

  lemma BlockedStays(k: Kernel)
    requires Cur(k).state == Blocked
    ensures Reschedule(k).tasks[k.current].state == Blocked
  {
    hide SelectHighest;
    SelectHighestIsBest(k.tasks, k.current);
  }

  /** The send, of a length that may be sent, is answered with that length, and yet neither staged nor parked. */
  predicate LostWithSuccess(k: Kernel, ev: Event) {
    && ev.Syscall? && ev.frame.a2 <= IPC_MSG_MAX
    && k.journal == Step(k, ev).journal && Step(k, ev).current == k.current
    && Step(k, ev).tasks[k.current].state == Running && Step(k, ev).frame.a0 == Word(ev.frame.a2)
  }

  /**
   A message sent is staged, parked, refused or lost. It is lost, while the sender is
   told that all of it was taken, exactly if it passes its checks and the receiver that
   waits for it asked for less.
   */
  lemma SendLosesIff(k: Kernel, ev: Event)
    requires Inv(k) && k.status == Live && ev.Syscall? && ev.num == SYS_SEND
    ensures LostWithSuccess(k, ev) <==>
              exists e: EpId :: SendsOn(k, ev, e) && k.eps[e].ReceiverWaiting? && k.eps[e].cap < ev.frame.a2
  {
    hide Step, InReadableWindow, EndpointCap, Core;
    CurrentCaps(k);
    GrantedExists(Cur(k), ev.frame.a0, RIGHT_SEND);
    if PassesSend(k, ev) {
      var e: EpId := EndpointCap(Cur(k), ev.frame.a0, RIGHT_SEND).id;
      PassingSend(k, ev, e);
      InvAt(k, e, 0);
      if k.eps[e].ReceiverWaiting? {
        SenderRunsOn(k, ev, e);
      }
    } else {
      RefusedSend(k, ev);
      if ev.frame.a2 <= IPC_MSG_MAX {
        ErrorsAreNoLengths(k, ev);
      }
    }
  }

  lemma ErrorsAreNoLengths(k: Kernel, ev: Event)
    requires ev.Syscall? && ev.frame.a2 <= IPC_MSG_MAX
    ensures Word(ev.frame.a2) != Word(ERR_INVALID_ARG)
    ensures var check := EndpointCap(Cur(k), ev.frame.a0, RIGHT_SEND);
            !check.Granted? ==> Word(DenyCode(check)) != Word(ev.frame.a2)
  {
    hide EndpointCap;
  }

  lemma SenderRunsOn(k: Kernel, ev: Event, e: EpId)
    requires Inv(k) && k.status == Live && SendsOn(k, ev, e) && k.eps[e].ReceiverWaiting?
    ensures Step(k, ev).tasks[k.current].state == Running
  {
    hide Word, EndpointCap, InReadableWindow, Core;
    InvAt(k, e, 0);
  }

  // ---- Drivers that stop ----------------------------------------------------

  /**
   A driver that stops, however it stops and whether or not it runs, takes its
   pending device event with it unless it stops by `sys_exit`: then the event stays
   pending for a dead receiver.
   */
  lemma StopDropsEventUnlessExit(k: Kernel, ev: Event, d: DevId, r: Tid)
    requires Inv(k) && k.status == Live && k.routes[d] == IrqRoute(r, true)
    requires !Stopped(k.tasks[r].state) && Stopped(Step(k, ev).tasks[r].state)
    ensures Step(k, ev).routes[d].pending <==> (r == k.current && ev.Syscall? && ev.num == SYS_EXIT)
  {
    hide Step, HoldsCap, Core, StagedWhy, CopiedWhy;
    WhatStops(k, ev, r);
    StepExplains(k, ev);
    EventStaysPending(k, ev, d);
    if ev.Syscall? && ev.num == SYS_TASK_KILL {
      KilledIsKilled(k, ev);
    }
  }

  lemma KilledIsKilled(k: Kernel, ev: Event)
    requires k.status == Live && ev.Syscall? && ev.num == SYS_TASK_KILL && ev.frame.a0 < MAX_TASKS && Controls(Cur(k))
    requires !Stopped(k.tasks[ev.frame.a0].state)
    ensures Stopped(Step(k, ev).tasks[ev.frame.a0].state) ==> Step(k, ev).tasks[ev.frame.a0].state == Killed
  {
    hide HoldsCap, Reschedule, ClearedEps, DroppedRoutes;
    var k2 := k.(frame := ev.frame).(miss := 0);
    RescheduleState(Kill(k2, ev.frame.a0), ev.frame.a0);
  }

  /** Starting or re-arming a task never takes a pending device event, not even from a live driver it resets. */
  lemma RearmKeepsEvent(k: Kernel, ev: Event, d: DevId)
    requires Inv(k) && k.status == Live && k.routes[d].pending
    requires ev.Syscall? && ev.num in {SYS_TASK_START, SYS_TASK_RESTART}
    ensures Step(k, ev).routes[d].pending
  {
    hide Step, StagedWhy, CopiedWhy, Core;
    StepExplains(k, ev);
    EventStaysPending(k, ev, d);
  }

  // ---- What becomes of a raised event ---------------------------------------

  /** A receiver waits on the device's endpoint but cannot be given the event: another task, or one with no room. */
  predicate Obstructed(k: Kernel, d: DevId) {
    var ep := k.eps[IrqEndpoint(d)];
    ep.ReceiverWaiting? && (ep.tid != k.routes[d].receiver || ep.cap == 0)
  }

  /**
   A raised event is given, kept or lost, and never two of these. It is given exactly
   if its live receiver waits for it with room; it is kept exactly if the receiver is
   alive and no one waits on the endpoint, or an earlier event was being kept there;
   otherwise it is lost, and if the receiver was alive the state shows no trace of it.
   */
  lemma RaiseOutcome(k: Kernel, d: DevId)
    requires Inv(k) && k.status == Live
    ensures var k', r, ep := IrqRaise(k, d), k.routes[d].receiver, k.eps[IrqEndpoint(d)];
            var dead := Dead(k.tasks, r);
            var given := !dead && ep.ReceiverWaiting? && !Obstructed(k, d);
            var kept := !dead && (!ep.ReceiverWaiting? || k.routes[d].pending);
            && Extends(k, k')
            && (given <==> exists t: Tid :: IrqGiven(d, t) in News(k, k'))
            && (given ==> ep.tid == r && IrqGiven(d, ep.tid) in News(k, k')
                          && Staged(ep.tid, PendingMsg(ep.dst, [IRQ_EVENT_CODE])) in News(k, k'))
            && (k'.routes[d].pending <==> kept)
            && !(given && kept)
            && (!given && !kept <==> dead || (Obstructed(k, d) && !k.routes[d].pending))
            && (!dead && Obstructed(k, d) ==> k' == Return(k, ERR_NO_SLOT))
  {
    hide Core;
    InvAt(k, IrqEndpoint(d), d);
    var k', ep := IrqRaise(k, d), k.eps[IrqEndpoint(d)];
    if !Dead(k.tasks, k.routes[d].receiver) && ep.ReceiverWaiting? && !Obstructed(k, d) {
      assert k'.journal == k.journal + [Staged(ep.tid, PendingMsg(ep.dst, [IRQ_EVENT_CODE])), IrqGiven(d, ep.tid)];
      assert News(k, k')[1] == IrqGiven(d, ep.tid);
      assert News(k, k')[0] == Staged(ep.tid, PendingMsg(ep.dst, [IRQ_EVENT_CODE]));
    }
  }

  // ---- A receiver with no room ----------------------------------------------

  /**
   A fault notice always takes the receiver off the channel, but wakes it if and
   only if it waited with room for one byte. One that waited with no room stays
   Blocked and is parked nowhere.
   */
  lemma NoticeWakesIffRoom(k: Kernel, e: EpId, code: byte)
    requires Core(k) && k.eps[e].ReceiverWaiting?
    ensures var t := k.eps[e].tid;
            var k' := NotifyEndpoint(k, e, code);
            && (k'.tasks[t].state == Ready <==> k.eps[e].cap >= 1)
            && (Stranded(k', t) <==> k.eps[e].cap == 0)
            && !ParkedSomewhere(k', t)
  {
    assert EpOk(k, e);
    var t := k.eps[e].tid;
    assert ParkedAs(k.eps[e], t);
    assert forall f: EpId :: f != e ==> !ParkedAs(k.eps[f], t);
  }
}
