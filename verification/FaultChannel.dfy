/** The fault channel: kernel notifications in, supervisor polls out, and whatever else happens between. */
module FaultChannel {
  import opened Base
  import opened Fault
  import opened FaultWire
  import opened Rendezvous

  datatype NotifyOutcome = NowDelivered | NowQueued | ChannelFull
  datatype PollError = Denied | NothingPending | BadReport(why: DecodeError)

  /** The place of a state in the life of an event. */
  function Rank(s: EventState): nat {
    match s
    case Created => 0
    case Queued => 1
    case Delivered => 2
    case Acknowledged => 3
  }

  /** An event after an attempt to move it: it moves one place up or not at all. */
  function Advanced(e: FaultEvent, to: EventState): FaultEvent {
    if Rank(to) == Rank(e.state) + 1 then e.(state := to) else e
  }

  /** The event after a whole series of attempts, and how many of them succeeded. */
  function Attempted(e: FaultEvent, tos: seq<EventState>): (FaultEvent, nat)
    decreases |tos|
  {
    if tos == [] then (e, 0)
    else
      var (f, n) := Attempted(Advanced(e, tos[0]), tos[1..]);
      (f, n + if Rank(tos[0]) == Rank(e.state) + 1 then 1 else 0)
  }

  /**
   Whatever is attempted, an event climbs one place per success and never comes back,
   so no more than three attempts ever succeed; and what it reports never changes.
   */
  lemma {:induction false} LifecycleClimbs(e: FaultEvent, tos: seq<EventState>)
    ensures Rank(Attempted(e, tos).0.state) == Rank(e.state) + Attempted(e, tos).1
    ensures Attempted(e, tos).1 <= 3 - Rank(e.state)
    ensures Report(Attempted(e, tos).0) == Report(e)
    decreases |tos|
  {
    if tos != [] {
      LifecycleClimbs(Advanced(e, tos[0]), tos[1..]);
    }
  }

  /**
   The outcome is absent where the source stops on a failed expectation: an event that
   is not new was accepted. Its message is on the channel by then.
   */
  function Notify(c: Channel, e: FaultEvent): (Option<NotifyOutcome>, Channel, FaultEvent) {
    var (r, d) := Send(c, KERNEL_SENDER, Wire(e));
    if r.Err? then (Some(ChannelFull), d, e)
    else if e.state != EventState.Created then (None, d, e)
    else if r.value.SendBlocked? then (Some(NowQueued), d, e.(state := EventState.Queued))
    else (Some(NowDelivered), d, e.(state := EventState.Delivered))
  }

  type PollResult = Result<(FaultReport, Decision), PollError>

  function Poll(t: CapTable, index: nat, c: Channel, tid: u32): (PollResult, Channel)
    requires Coherent(c)
  {
    var (r, d) := RecvChecked(t, index, c, tid);
    (Polled(r), d)
  }

  function Polled(r: Result<RecvOutcome, IpcCapError>): PollResult {
    match r
    case Err(CapFailed(_)) => Err(Denied)
    case Err(WrongEndpoint) => Err(Denied)
    case Err(IpcFailed(_)) => Err(NothingPending)
    case Ok(RecvBlocked) => Err(NothingPending)
    case Ok(Received(msg, _)) => Judged(msg)
  }

  function Judged(msg: Message): PollResult {
    match Decode(msg)
    case Err(w) => Err(BadReport(w))
    case Ok(report) => Ok((report, Decide(report)))
  }

  // ---- Runs -----------------------------------------------------------------

  /** Everything that can happen on the channel. */
  datatype Op =
    | NotifyOp(event: FaultEvent)
    | SendOp(table: CapTable, index: nat, sender: u32, msg: Message)
    | PollOp(table: CapTable, index: nat, tid: u32)
    | CancelOp(tid: u32)

  function After(c: Channel, op: Op): Channel
    requires Coherent(c)
  {
    match op
    case NotifyOp(e) => Notify(c, e).1
    case SendOp(t, i, s, m) => SendChecked(t, i, c, s, m).1
    case PollOp(t, i, tid) => Poll(t, i, c, tid).1
    case CancelOp(tid) => Cancel(c, tid).1
  }

  lemma AfterCoherent(c: Channel, op: Op)
    requires Coherent(c)
    ensures Coherent(After(c, op)) && After(c, op).id == c.id
  {
  }

  function Run(c: Channel, ops: seq<Op>): (d: Channel)
    requires Coherent(c)
    ensures Coherent(d) && d.id == c.id
  {
    if ops == [] then c
    else
      var p := Run(c, ops[..|ops| - 1]);
      AfterCoherent(p, ops[|ops| - 1]);
      After(p, ops[|ops| - 1])
  }

  // ---- A queued event stays -------------------------------------------------

  /** The only operations that take a parked fault event off its channel. */
  predicate Takes(op: Op, id: u32) {
    || (op.PollOp? && Authorised(op.table, op.index, id, RECEIVE))
    || op == CancelOp(KERNEL_SENDER)
  }

  predicate Parked(c: Channel, e: FaultEvent) { c.state == SenderWaiting(KERNEL_SENDER) && c.pending == Some(Wire(e)) }

  /** With an event parked, an operation changes the channel exactly when it takes the event. */
  lemma StaysUnlessTaken(c: Channel, e: FaultEvent, op: Op)
    requires Coherent(c) && Parked(c, e)
    ensures After(c, op) == c <==> !Takes(op, c.id)
  {
    hide Wire, Lookup, Authorised;
    match op
    case NotifyOp(_) =>
    case SendOp(t, i, s, m) =>
    case PollOp(t, i, tid) => RefusalIsAuthority(t, i, c.id, RECEIVE);
    case CancelOp(_) =>
  }

  lemma {:induction false} QueuedSurvives(c: Channel, e: FaultEvent, ops: seq<Op>)
    requires Coherent(c) && Parked(c, e)
    requires forall i | 0 <= i < |ops| :: !Takes(ops[i], c.id)
    ensures Run(c, ops) == c
  {
    if ops != [] {
      QueuedSurvives(c, e, ops[..|ops| - 1]);
      StaysUnlessTaken(c, e, ops[|ops| - 1]);
    }
  }

  /**
   An event notified on an idle channel is queued; whatever sends, notifications,
   denied polls and cancellations of other threads follow, the next authorised
   poll receives it with every field equal, decides on it, and frees the channel.
   */
  lemma QueuedEventIsDelivered(c: Channel, e: FaultEvent, ops: seq<Op>, t: CapTable, index: nat, tid: u32)
    requires Coherent(c) && c.state == Idle
    requires forall i | 0 <= i < |ops| :: !Takes(ops[i], c.id)
    requires Authorised(t, index, c.id, RECEIVE)
    ensures Notify(c, e).0 == if e.state == EventState.Created then Some(NowQueued) else None
    ensures Coherent(Notify(c, e).1)
    ensures var (r, d) := Poll(t, index, Run(Notify(c, e).1, ops), tid);
            r == Ok((Report(e), Decide(Report(e)))) && d == c
  {
    hide Wire, Lookup, Authorised, Decode, Takes;
    QueuedSurvives(Notify(c, e).1, e, ops);
    RefusalIsAuthority(t, index, c.id, RECEIVE);
    DecodeEncode(e);
  }

  // ---- No forged reports ----------------------------------------------------

  /** The kernel writes the sender of every message and keeps thread 0 to itself. */
  predicate Stamped(op: Op) { op.SendOp? ==> op.msg.sender == op.sender != KERNEL_SENDER }

  ghost predicate Notified(ops: seq<Op>, m: Message) {
    exists i :: 0 <= i < |ops| && ops[i].NotifyOp? && m == Wire(ops[i].event)
  }

  lemma NotifiedLater(ops: seq<Op>, m: Message)
    requires ops != [] && Notified(ops[..|ops| - 1], m)
    ensures Notified(ops, m)
  {
    var q := ops[..|ops| - 1];
    var i :| 0 <= i < |q| && q[i].NotifyOp? && m == Wire(q[i].event);
    assert ops[i] == q[i];
  }

  /** A parked message from the kernel is the encoding of an event notified in the run. */
  lemma {:induction false} ParkedIsNotified(id: u32, ops: seq<Op>)
    requires forall i | 0 <= i < |ops| :: Stamped(ops[i])
    ensures var c := Run(Channel(id, Idle, None), ops);
            c.pending.Some? && c.pending.value.sender == KERNEL_SENDER ==> Notified(ops, c.pending.value)
  {
    if ops != [] {
      var q, op := ops[..|ops| - 1], ops[|ops| - 1];
      ParkedIsNotified(id, q);
      var b, c := Run(Channel(id, Idle, None), q), Run(Channel(id, Idle, None), ops);
      assert Stamped(op);
      if c.pending.Some? && c.pending.value.sender == KERNEL_SENDER {
        if b.pending == c.pending {
          NotifiedLater(ops, c.pending.value);
        } else {
          NewlyParked(b, op);
          assert ops[|ops| - 1].NotifyOp? && c.pending.value == Wire(ops[|ops| - 1].event);
        }
      }
    }
  }

  lemma NewlyParked(b: Channel, op: Op)
    requires Coherent(b) && Stamped(op)
    requires After(b, op).pending.Some? && After(b, op).pending != b.pending
    requires After(b, op).pending.value.sender == KERNEL_SENDER
    ensures op.NotifyOp? && After(b, op).pending.value == Wire(op.event)
  {
    hide Wire, Refusal;
  }

  /**
   In every run from a fresh channel, a poll that yields a report yields that of an
   event the kernel notified earlier in the run: user messages never decode.
   */
  lemma ReportsAreGenuine(id: u32, ops: seq<Op>, t: CapTable, index: nat, tid: u32) returns (i: nat)
    requires forall k | 0 <= k < |ops| :: Stamped(ops[k])
    requires Poll(t, index, Run(Channel(id, Idle, None), ops), tid).0.Ok?
    ensures i < |ops| && ops[i].NotifyOp?
    ensures Poll(t, index, Run(Channel(id, Idle, None), ops), tid).0 ==
            Ok((Report(ops[i].event), Decide(Report(ops[i].event))))
  {
    hide Wire, Refusal, Run;
    ParkedIsNotified(id, ops);
    var c := Run(Channel(id, Idle, None), ops);
    var m := c.pending.value;
    assert Judged(m).Ok? && m.sender == KERNEL_SENDER;
    i :| 0 <= i < |ops| && ops[i].NotifyOp? && m == Wire(ops[i].event);
    DecodeEncode(ops[i].event);
  }

  // ---- A waiting supervisor misses its event --------------------------------

  /**
   Which notifications are ever reported: a new event that the channel accepts reaches
   the next authorised poll if and only if the channel was idle. The other channel that
   accepts, one on which the supervisor waits, keeps nothing of it.
   */
  lemma ReportedIffIdle(c: Channel, e: FaultEvent, t: CapTable, index: nat, tid: u32)
    requires Coherent(c) && e.state == EventState.Created && Authorised(t, index, c.id, RECEIVE)
    requires Notify(c, e).0 != Some(ChannelFull)
    ensures Coherent(Notify(c, e).1)
    ensures Poll(t, index, Notify(c, e).1, tid).0 == Ok((Report(e), Decide(Report(e)))) <==> c.state == Idle
  {
    hide Wire, Lookup, Authorised, Decode;
    RefusalIsAuthority(t, index, c.id, RECEIVE);
    DecodeEncode(e);
  }

  /**
   An event notified while the supervisor waits is marked delivered and leaves the
   channel as if it had never been: whatever follows, a report a poll yields is that of
   an event notified afterwards.
   */
  lemma HandedEventIsLost(c: Channel, e: FaultEvent, ops: seq<Op>, t: CapTable, index: nat, tid: u32)
    requires Coherent(c) && c.state.ReceiverWaiting? && e.state == EventState.Created
    requires forall k | 0 <= k < |ops| :: Stamped(ops[k])
    ensures Notify(c, e) == (Some(NowDelivered), Channel(c.id, Idle, None), e.(state := EventState.Delivered))
    ensures var r := Poll(t, index, Run(Notify(c, e).1, ops), tid).0;
            r.Ok? ==> exists i | 0 <= i < |ops| ::
              ops[i].NotifyOp? && r == Ok((Report(ops[i].event), Decide(Report(ops[i].event))))
  {
    hide Wire, Refusal, Run;
    var r := Poll(t, index, Run(Notify(c, e).1, ops), tid).0;
    if r.Ok? {
      var i := ReportsAreGenuine(c.id, ops, t, index, tid);
      assert ops[i].NotifyOp? && r == Ok((Report(ops[i].event), Decide(Report(ops[i].event))));
    }
  }

  /** On a fresh channel: the supervisor polls and finds nothing, an event is notified as delivered, and it finds nothing. */
  lemma PollThenNotifyThenPoll(id: u32, e: FaultEvent, t: CapTable, index: nat, tid: u32)
    requires e.state == EventState.Created && Authorised(t, index, id, RECEIVE)
    ensures var c0 := Channel(id, Idle, None);
            var (r1, c1) := Poll(t, index, c0, tid);
            && r1 == Err(NothingPending) && Coherent(c1)
            && Notify(c1, e) == (Some(NowDelivered), c0, e.(state := EventState.Delivered))
            && Poll(t, index, c0, tid).0 == Err(NothingPending)
  {
    hide Wire, Lookup, Authorised, Decode;
    RefusalIsAuthority(t, index, id, RECEIVE);
  }

  // ---- Conservation ---------------------------------------------------------

  /** The message an operation gets accepted: a notification or send that is not refused. */
  function Accepted(c: Channel, op: Op): seq<Message>
    requires Coherent(c)
  {
    match op
    case NotifyOp(e) => if Send(c, KERNEL_SENDER, Wire(e)).0.Ok? then [Wire(e)] else []
    case SendOp(t, i, s, m) => if SendChecked(t, i, c, s, m).0.Ok? then [m] else []
    case PollOp(_, _, _) => []
    case CancelOp(_) => []
  }

  /** The message an operation brings to its end: handed out for a waiting receiver, received, or cancelled. */
  function Finished(c: Channel, op: Op): seq<Message>
    requires Coherent(c)
  {
    match op
    case NotifyOp(e) => HandedOver(Lifted(Send(c, KERNEL_SENDER, Wire(e)).0))
    case SendOp(t, i, s, m) => HandedOver(SendChecked(t, i, c, s, m).0)
    case PollOp(t, i, tid) => Taken(RecvChecked(t, i, c, tid).0)
    case CancelOp(tid) => if Cancel(c, tid).0 == Cancelled && c.pending.Some? then [c.pending.value] else []
  }

  function HandedOver(r: Result<SendOutcome, IpcCapError>): seq<Message> {
    if r.Ok? && r.value.Delivered? then [r.value.msg] else []
  }

  function Taken(r: Result<RecvOutcome, IpcCapError>): seq<Message> {
    if r.Ok? && r.value.Received? then [r.value.msg] else []
  }

  function AllAccepted(c: Channel, ops: seq<Op>): seq<Message>
    requires Coherent(c)
  {
    if ops == [] then []
    else AllAccepted(c, ops[..|ops| - 1]) + Accepted(Run(c, ops[..|ops| - 1]), ops[|ops| - 1])
  }

  function AllFinished(c: Channel, ops: seq<Op>): seq<Message>
    requires Coherent(c)
  {
    if ops == [] then []
    else AllFinished(c, ops[..|ops| - 1]) + Finished(Run(c, ops[..|ops| - 1]), ops[|ops| - 1])
  }

  function Held(c: Channel): seq<Message> { if c.pending.Some? then [c.pending.value] else [] }

  /** One operation: what was held and what it got accepted is what it brought to an end and what is held now. */
  lemma OpConserves(c: Channel, op: Op)
    requires Coherent(c)
    ensures Held(c) + Accepted(c, op) == Finished(c, op) + Held(After(c, op))
  {
    hide Wire, Refusal, Decode;
    match op
    case NotifyOp(e) =>
    case SendOp(t, i, s, m) =>
    case PollOp(t, i, tid) =>
    case CancelOp(tid) =>
  }

  /**
   Over every run from a fresh channel, the messages accepted are, in order, those
   handed to the sender's outcome for a waiting receiver, received or cancelled, and the
   one still held: none is doubled or overtaken. A notification discards its outcome.
   */
  lemma {:induction false} MessagesConserved(id: u32, ops: seq<Op>)
    ensures var c := Channel(id, Idle, None);
            AllAccepted(c, ops) == AllFinished(c, ops) + Held(Run(c, ops))
  {
    hide After, Accepted, Finished, Held;
    var c := Channel(id, Idle, None);
    if ops == [] {
      NothingHeld(id);
    } else {
      var q, op := ops[..|ops| - 1], ops[|ops| - 1];
      MessagesConserved(id, q);
      var b := Run(c, q);
      OpConserves(b, op);
      Regroup(AllFinished(c, q), Held(b), Accepted(b, op));
      Regroup(AllFinished(c, q), Finished(b, op), Held(After(b, op)));
    }
  }

  lemma NothingHeld(id: u32)
    ensures Held(Channel(id, Idle, None)) == []
  {
  }

  lemma Regroup(a: seq<Message>, b: seq<Message>, c: seq<Message>)
    ensures (a + b) + c == a + (b + c)
  {
  }

  // ---- Outcomes -------------------------------------------------------------

  /** A notification: queued on an idle channel, handed over to a waiting party, refused behind another message. */
  lemma NotifyByState(c: Channel, e: FaultEvent)
    requires Coherent(c) && e.state == EventState.Created
    ensures Notify(c, e) == match c.state
              case Idle => (Some(NowQueued), Channel(c.id, SenderWaiting(0), Some(Wire(e))), e.(state := EventState.Queued))
              case ReceiverWaiting(_) => (Some(NowDelivered), Channel(c.id, Idle, None), e.(state := EventState.Delivered))
              case SenderWaiting(_) => (Some(ChannelFull), c, e)
  {
    hide Wire;
  }

  /** A poll: denied to who may not receive; with a message there it takes it and judges it; otherwise it finds nothing. */
  lemma PollByState(t: CapTable, index: nat, c: Channel, tid: u32)
    requires Coherent(c)
    ensures Poll(t, index, c, tid) ==
            if !Authorised(t, index, c.id, 16) then (Err(Denied), c)
            else match c.state
              case Idle => (Err(NothingPending), c.(state := ReceiverWaiting(tid)))
              case ReceiverWaiting(_) => (Err(NothingPending), c)
              case SenderWaiting(_) =>
                var report := Decode(c.pending.value);
                (if report.Ok? then Ok((report.value, Decide(report.value))) else Err(BadReport(report.error)),
                 Channel(c.id, Idle, None))
  {
    hide Wire, Decode, Authorised, Refusal, Decide;
    RefusalIsAuthority(t, index, c.id, 16);
    RefusedMeans(t, index, c.id);
  }

  lemma RefusedMeans(t: CapTable, index: nat, id: u32)
    ensures var no := Refusal(t, index, id, RECEIVE);
            no.Some? ==> no.value.CapFailed? || no.value.WrongEndpoint?
  {
  }

  // ---- In place -------------------------------------------------------------

  /** Moves an event along, or refuses. */
  method Advance(e: FaultEvent, to: EventState) returns (ok: bool, f: FaultEvent)
    ensures ok <==> Rank(to) == Rank(e.state) + 1
    ensures f == Advanced(e, to)
  {
    ok := match (e.state, to)
      case (Created, Queued) => true
      case (Queued, Delivered) => true
      case (Delivered, Acknowledged) => true
      case (_, _) => false;
    f := if ok then e.(state := to) else e;
  }

  method NotifySupervisor(channel: Endpoint, e: FaultEvent) returns (r: Option<NotifyOutcome>, f: FaultEvent)
    requires channel.Valid()
    modifies channel
    ensures channel.Valid() && (r, channel.View(), f) == Notify(old(channel.View()), e)
  {
    hide Wire, Decode;
    var msg := Encode(e);
    var sent := channel.SendMsg(KERNEL_SENDER, msg);
    if sent.Err? {
      return Some(ChannelFull), e;
    }
    var ok;
    ok, f := Advance(e, EventState.Queued);
    if !ok {
      return None, f;
    }
    if sent.value.SendBlocked? {
      return Some(NowQueued), f;
    }
    ok, f := Advance(f, EventState.Delivered);
    assert ok;
    r := Some(NowDelivered);
  }

  method PollFaultChannel(t: CapTable, index: nat, channel: Endpoint, tid: u32) returns (r: PollResult)
    requires channel.Valid()
    modifies channel
    ensures channel.Valid() && (r, channel.View()) == Poll(t, index, old(channel.View()), tid)
  {
    hide Decode, Refusal;
    var got := channel.CheckedRecv(t, index, tid);
    match got {
      case Err(CapFailed(_)) => r := Err(Denied);
      case Err(WrongEndpoint) => r := Err(Denied);
      case Err(IpcFailed(_)) => r := Err(NothingPending);
      case Ok(RecvBlocked) => r := Err(NothingPending);
      case Ok(Received(msg, _)) =>
        var report := Decode(msg);
        if report.Err? {
          r := Err(BadReport(report.error));
        } else {
          r := Ok((report.value, Decide(report.value)));
        }
    }
  }
}
