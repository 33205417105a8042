/** Synchronous rendezvous on one endpoint, behind capability lookup. */
module Rendezvous {
  import opened Base
  import opened FaultWire

  // ---- Capabilities ---------------------------------------------------------

  const CAP_TABLE_SLOTS: nat := 32
  const SEND: bv16 := 8
  const RECEIVE: bv16 := 16

  datatype ObjectType = ThreadObject | EndpointObject | AddressSpace | PhysicalFrame | Timer | SchedulingContext | FaultChannel
  datatype ObjectRef = ObjectRef(objectType: ObjectType, objectId: u32)
  datatype Capability = Capability(object_: ObjectRef, rights: bv16)
  datatype CapError = InvalidIndex | EmptySlot | WrongObjectType | InsufficientRights

  type CapTable = t: seq<Option<Capability>> | |t| == CAP_TABLE_SLOTS witness seq(CAP_TABLE_SLOTS, _ => None)

  /** Bounds, then occupancy, then type, then rights. */
  function Lookup(t: CapTable, index: nat, expected: ObjectType, required: bv16): Result<ObjectRef, CapError> {
    if index >= CAP_TABLE_SLOTS then Err(InvalidIndex)
    else if t[index].None? then Err(EmptySlot)
    else if t[index].value.object_.objectType != expected then Err(WrongObjectType)
    else if t[index].value.rights & required != required then Err(InsufficientRights)
    else Ok(t[index].value.object_)
  }

  // ---- The endpoint ---------------------------------------------------------

  datatype EndpointState = Idle | SenderWaiting(sender: u32) | ReceiverWaiting(receiver: u32)

  datatype Channel = Channel(id: u32, state: EndpointState, pending: Option<Message>)

  /** A message is parked exactly while a sender waits. */
  predicate Coherent(c: Channel) { c.pending.Some? <==> c.state.SenderWaiting? }

  datatype IpcError = Busy | AlreadyWaiting
  datatype SendOutcome = SendBlocked | Delivered(to: u32, msg: Message)
  datatype RecvOutcome = RecvBlocked | Received(msg: Message, unblock: u32)
  datatype CancelOutcome = NotWaiting | Cancelled
  datatype IpcCapError = CapFailed(cap: CapError) | WrongEndpoint | IpcFailed(ipc: IpcError)

  function Send(c: Channel, sender: u32, msg: Message): (Result<SendOutcome, IpcError>, Channel) {
    match c.state
    case Idle => (Ok(SendBlocked), c.(state := SenderWaiting(sender), pending := Some(msg)))
    case ReceiverWaiting(r) => (Ok(Delivered(r, msg)), c.(state := Idle))
    case SenderWaiting(s) => (Err(if s == sender then AlreadyWaiting else Busy), c)
  }

  function Recv(c: Channel, receiver: u32): (Result<RecvOutcome, IpcError>, Channel)
    requires Coherent(c)
  {
    match c.state
    case Idle => (Ok(RecvBlocked), c.(state := ReceiverWaiting(receiver)))
    case SenderWaiting(s) => (Ok(Received(c.pending.value, s)), c.(state := Idle, pending := None))
    case ReceiverWaiting(r) => (Err(if r == receiver then AlreadyWaiting else Busy), c)
  }

  function Cancel(c: Channel, tid: u32): (CancelOutcome, Channel) {
    if c.state == SenderWaiting(tid) then (Cancelled, c.(state := Idle, pending := None))
    else if c.state == ReceiverWaiting(tid) then (Cancelled, c.(state := Idle))
    else (NotWaiting, c)
  }

  /** What stands between a caller and the endpoint. */
  function Refusal(t: CapTable, index: nat, id: u32, right: bv16): Option<IpcCapError> {
    match Lookup(t, index, EndpointObject, right)
    case Err(e) => Some(CapFailed(e))
    case Ok(o) => if o.objectId != id then Some(WrongEndpoint) else None
  }

  predicate Authorised(t: CapTable, index: nat, id: u32, right: bv16) {
    && index < CAP_TABLE_SLOTS && t[index].Some?
    && t[index].value.object_ == ObjectRef(EndpointObject, id)
    && t[index].value.rights & right == right
  }

  /** Exactly the holders of the right on this endpoint get through. */
  lemma RefusalIsAuthority(t: CapTable, index: nat, id: u32, right: bv16)
    ensures Refusal(t, index, id, right).None? <==> Authorised(t, index, id, right)
  {
  }

  function Lifted<T>(r: Result<T, IpcError>): Result<T, IpcCapError> {
    match r
    case Ok(v) => Ok(v)
    case Err(e) => Err(IpcFailed(e))
  }

  function SendChecked(t: CapTable, index: nat, c: Channel, sender: u32, msg: Message): (Result<SendOutcome, IpcCapError>, Channel) {
    var no := Refusal(t, index, c.id, SEND);
    if no.Some? then (Err(no.value), c)
    else
      var (r, d) := Send(c, sender, msg);
      (Lifted(r), d)
  }

  function RecvChecked(t: CapTable, index: nat, c: Channel, receiver: u32): (Result<RecvOutcome, IpcCapError>, Channel)
    requires Coherent(c)
  {
    var no := Refusal(t, index, c.id, RECEIVE);
    if no.Some? then (Err(no.value), c)
    else
      var (r, d) := Recv(c, receiver);
      (Lifted(r), d)
  }

  // ---- Two parties meet -----------------------------------------------------

  /** Sender first: it blocks, and the receiver gets its message and its name. Receiver first: likewise the other way round. */
  lemma TheyMeet(id: u32, sender: u32, msg: Message, receiver: u32)
    ensures var c := Channel(id, Idle, None);
            && Send(c, sender, msg).0 == Ok(SendBlocked) && Coherent(Send(c, sender, msg).1)
            && Recv(Send(c, sender, msg).1, receiver) == (Ok(Received(msg, sender)), c)
            && Recv(c, receiver).0 == Ok(RecvBlocked)
            && Send(Recv(c, receiver).1, sender, msg) == (Ok(Delivered(receiver, msg)), c)
  {
  }

  /** A second party of the same side is refused, by whether it is the one waiting, and changes nothing. */
  lemma SecondIsRefused(c: Channel, tid: u32, msg: Message)
    requires Coherent(c)
    ensures c.state.SenderWaiting? ==> Send(c, tid, msg) == (Err(if tid == c.state.sender then AlreadyWaiting else Busy), c)
    ensures c.state.ReceiverWaiting? ==> Recv(c, tid) == (Err(if tid == c.state.receiver then AlreadyWaiting else Busy), c)
  {
  }

  /** Cancelling takes off exactly the named party, with its message, and leaves anyone else alone. */
  lemma CancelTakesParty(c: Channel, tid: u32)
    requires Coherent(c)
    ensures Cancel(c, tid) ==
            if c.state == SenderWaiting(tid) || c.state == ReceiverWaiting(tid) then (Cancelled, Channel(c.id, Idle, None))
            else (NotWaiting, c)
  {
  }

  /** Why a lookup fails: the first of bounds, occupancy, type and rights that is not met. */
  lemma LookupRefusals(t: CapTable, index: nat, expected: ObjectType, required: bv16)
    ensures Lookup(t, index, expected, required) == Err(InvalidIndex) <==> index >= 32
    ensures Lookup(t, index, expected, required) == Err(EmptySlot) <==> index < 32 && t[index].None?
    ensures Lookup(t, index, expected, required) == Err(WrongObjectType) <==>
              index < 32 && t[index].Some? && t[index].value.object_.objectType != expected
    ensures Lookup(t, index, expected, required) == Err(InsufficientRights) <==>
              index < 32 && t[index].Some? && t[index].value.object_.objectType == expected
              && t[index].value.rights & required != required
  {
  }

  /** What happens to an endpoint. */
  datatype Act = SendAct(tid: u32, msg: Message) | RecvAct(tid: u32) | CancelAct(tid: u32)

  function Acted(c: Channel, a: Act): (d: Channel)
    requires Coherent(c)
    ensures Coherent(d)
  {
    match a
    case SendAct(tid, msg) => Send(c, tid, msg).1
    case RecvAct(tid) => Recv(c, tid).1
    case CancelAct(tid) => Cancel(c, tid).1
  }

  function History(id: u32, acts: seq<Act>): (d: Channel)
    ensures Coherent(d)
    decreases |acts|
  {
    if acts == [] then Channel(id, Idle, None) else Acted(History(id, acts[..|acts| - 1]), acts[|acts| - 1])
  }

  /** The call that leaves an endpoint as it is. */
  predicate ParkedBy(c: Channel, a: Act) {
    match c.state
    case Idle => false
    case SenderWaiting(s) => c.pending.Some? && a == SendAct(s, c.pending.value)
    case ReceiverWaiting(r) => a == RecvAct(r)
  }

  /** Whoever comes next on the other side gets the message and the name of the call that parked. */
  lemma MeetsWhoParked(c: Channel, a: Act, tid: u32, msg: Message)
    requires Coherent(c) && ParkedBy(c, a)
    ensures a.SendAct? ==> Recv(c, tid) == (Ok(Received(a.msg, a.tid)), Channel(c.id, Idle, None))
    ensures a.RecvAct? ==> Send(c, tid, msg) == (Ok(Delivered(a.tid, msg)), Channel(c.id, Idle, None))
  {
  }

  lemma ActParks(c: Channel, a: Act)
    requires Coherent(c) && Acted(c, a).state != Idle
    ensures Acted(c, a) == c || (c.state == Idle && ParkedBy(Acted(c, a), a))
  {
  }

  /** Nothing has happened to the endpoint since act `n`. */
  ghost predicate UntouchedSince(id: u32, acts: seq<Act>, n: nat) {
    forall i | n < i <= |acts| :: History(id, acts[..i]) == History(id, acts)
  }

  /**
   After any history, a waiting party was parked by its own call, made on an idle
   endpoint, with that message, and is untouched since.
   */
  lemma {:induction false} WhoParked(id: u32, acts: seq<Act>) returns (n: nat)
    requires History(id, acts).state != Idle
    ensures n < |acts| && ParkedBy(History(id, acts), acts[n])
    ensures History(id, acts[..n]).state == Idle && UntouchedSince(id, acts, n)
    decreases |acts|
  {
    hide Acted;
    var q, a := acts[..|acts| - 1], acts[|acts| - 1];
    ActParks(History(id, q), a);
    if History(id, acts) == History(id, q) {
      n := WhoParked(id, q);
      assert acts[..n] == q[..n];
      forall i | n < i <= |acts|
        ensures History(id, acts[..i]) == History(id, acts)
      {
        if i < |acts| {
          assert acts[..i] == q[..i];
        } else {
          assert acts[..i] == acts;
        }
      }
    } else {
      n := |acts| - 1;
      assert acts[..|acts|] == acts;
    }
  }

  /** The endpoint object itself, updated in place. */
  class Endpoint {
    const id: u32
    var state: EndpointState
    var pending: Option<Message>

    ghost function View(): Channel
      reads this
    {
      Channel(id, state, pending)
    }

    ghost predicate Valid()
      reads this
    {
      Coherent(View())
    }

    constructor (id: u32)
      ensures Valid() && View() == Channel(id, Idle, None)
    {
      this.id := id;
      state, pending := Idle, None;
    }

    method SendMsg(sender: u32, msg: Message) returns (r: Result<SendOutcome, IpcError>)
      requires Valid()
      modifies this
      ensures Valid() && (r, View()) == Send(old(View()), sender, msg)
    {
      match state
      case Idle =>
        pending := Some(msg);
        state := SenderWaiting(sender);
        r := Ok(SendBlocked);
      case ReceiverWaiting(receiver) =>
        state := Idle;
        r := Ok(Delivered(receiver, msg));
      case SenderWaiting(s) =>
        r := Err(if s == sender then AlreadyWaiting else Busy);
    }

    method RecvMsg(receiver: u32) returns (r: Result<RecvOutcome, IpcError>)
      requires Valid()
      modifies this
      ensures Valid() && (r, View()) == Recv(old(View()), receiver)
    {
      match state
      case Idle =>
        state := ReceiverWaiting(receiver);
        r := Ok(RecvBlocked);
      case SenderWaiting(sender) =>
        var msg := pending.value;
        pending := None;
        state := Idle;
        r := Ok(Received(msg, sender));
      case ReceiverWaiting(other) =>
        r := Err(if other == receiver then AlreadyWaiting else Busy);
    }

    method CancelParty(tid: u32) returns (r: CancelOutcome)
      requires Valid()
      modifies this
      ensures Valid() && (r, View()) == Cancel(old(View()), tid)
    {
      r := NotWaiting;
      match state
      case SenderWaiting(sender) =>
        if sender == tid {
          pending := None;
          state := Idle;
          r := Cancelled;
        }
      case ReceiverWaiting(receiver) =>
        if receiver == tid {
          state := Idle;
          r := Cancelled;
        }
      case Idle =>
    }

    method CheckedSend(t: CapTable, index: nat, sender: u32, msg: Message) returns (r: Result<SendOutcome, IpcCapError>)
      requires Valid()
      modifies this
      ensures Valid() && (r, View()) == SendChecked(t, index, old(View()), sender, msg)
    {
      var obj := Lookup(t, index, EndpointObject, SEND);
      if obj.Err? {
        return Err(CapFailed(obj.error));
      }
      if obj.value.objectId != id {
        return Err(WrongEndpoint);
      }
      var o := SendMsg(sender, msg);
      r := Lifted(o);
    }

    method CheckedRecv(t: CapTable, index: nat, receiver: u32) returns (r: Result<RecvOutcome, IpcCapError>)
      requires Valid()
      modifies this
      ensures Valid() && (r, View()) == RecvChecked(t, index, old(View()), receiver)
    {
      var obj := Lookup(t, index, EndpointObject, RECEIVE);
      if obj.Err? {
        return Err(CapFailed(obj.error));
      }
      if obj.value.objectId != id {
        return Err(WrongEndpoint);
      }
      var o := RecvMsg(receiver);
      r := Lifted(o);
    }
  }
}
