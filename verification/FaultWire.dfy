/** Fault events on the wire: the 30-byte little-endian layout and its checked decoding. */
module FaultWire {
  import opened Base
  import opened Fault

  const KERNEL_SENDER: u32 := 0
  const FAULT_WIRE_BYTES: nat := 30
  const MSG_MAX_BYTES: nat := 128

  /** A bounded, copied payload under a kernel-written sender. */
  datatype RawMessage = Message(sender: u32, data: seq<byte>)
  type Message = m: RawMessage | |m.data| <= MSG_MAX_BYTES witness Message(0, [])

  datatype RawFaultEvent = FaultEvent(eventId: u64, kind: FaultType, severity: Severity, thread: u32, pc: u64, detail: u64,
                                      state: EventState)

  /** Events are only built with the severity of their type. */
  type FaultEvent = e: RawFaultEvent | e.severity == SeverityOf(e.kind)
    witness RawFaultEvent.FaultEvent(0, PageFault, Error, 0, 0, 0, Created)

  datatype FaultReport = FaultReport(eventId: u64, kind: FaultType, severity: Severity, thread: u32, pc: u64, detail: u64)

  datatype DecodeError = WrongLength | UnknownFaultType | SeverityMismatch | ForgedSender

  function Report(e: FaultEvent): FaultReport {
    FaultReport(e.eventId, e.kind, e.severity, e.thread, e.pc, e.detail)
  }

  // ---- Little-endian words --------------------------------------------------

  function Pow256(k: nat): (p: nat)
    ensures p > 0
  {
    if k == 0 then 1 else 256 * Pow256(k - 1)
  }

  /** The `k` low bytes of `n`, least significant first. */
  function Le(n: nat, k: nat): (s: seq<byte>)
    ensures |s| == k
  {
    if k == 0 then [] else [n % 256] + Le(n / 256, k - 1)
  }

  function FromLe(s: seq<byte>): (n: nat)
    ensures n < Pow256(|s|)
  {
    if s == [] then 0 else s[0] + 256 * FromLe(s[1..])
  }

  lemma {:induction false} LeRoundTrip(n: nat, k: nat)
    requires n < Pow256(k)
    ensures FromLe(Le(n, k)) == n
  {
    if k > 0 {
      LeRoundTrip(n / 256, k - 1);
      assert Le(n, k)[1..] == Le(n / 256, k - 1);
    }
  }

  lemma {:induction false} FromLeRoundTrip(s: seq<byte>)
    ensures Le(FromLe(s), |s|) == s
  {
    if s != [] {
      FromLeRoundTrip(s[1..]);
      var m := FromLe(s[1..]);
      assert (s[0] + 256 * m) % 256 == s[0] && (s[0] + 256 * m) / 256 == m;
    }
  }

  lemma WordSizes()
    ensures Pow256(4) == TWO32 && Pow256(8) == TWO64
  {
    assert Pow256(2) == 0x1_0000;
    assert Pow256(4) == TWO32;
    assert Pow256(6) == 0x1_0000_0000_0000;
  }

  // ---- Codes ----------------------------------------------------------------

  function TypeCode(t: FaultType): byte {
    match t
    case IllegalSyscall => 0
    case InvalidCapability => 1
    case PageFault => 2
    case IllegalInstruction => 3
    case WatchdogTimeout => 4
    case DeadlineMiss => 5
    case IPCViolation => 6
    case KernelInvariantViolation => 7
  }

  function TypeFromCode(v: byte): Option<FaultType> {
    if v == 0 then Some(IllegalSyscall)
    else if v == 1 then Some(InvalidCapability)
    else if v == 2 then Some(PageFault)
    else if v == 3 then Some(IllegalInstruction)
    else if v == 4 then Some(WatchdogTimeout)
    else if v == 5 then Some(DeadlineMiss)
    else if v == 6 then Some(IPCViolation)
    else if v == 7 then Some(KernelInvariantViolation)
    else None
  }

  function SeverityCode(s: Severity): byte {
    match s
    case Info => 0
    case Error => 1
    case Critical => 2
    case Fatal => 3
  }

  // ---- The layout -----------------------------------------------------------

  /** id, type, severity, thread, pc, detail. */
  function Layout(r: FaultReport): (s: seq<byte>)
    ensures |s| == FAULT_WIRE_BYTES
  {
    Le(r.eventId, 8) + [TypeCode(r.kind)] + [SeverityCode(r.severity)] + Le(r.thread, 4) + Le(r.pc, 8) + Le(r.detail, 8)
  }

  function Wire(e: FaultEvent): Message { Message(KERNEL_SENDER, Layout(Report(e))) }

  function Word32(s: seq<byte>): (n: u32)
    requires |s| == 4
  {
    WordSizes();
    FromLe(s)
  }

  function Word64(s: seq<byte>): (n: u64)
    requires |s| == 8
  {
    WordSizes();
    FromLe(s)
  }

  function Decode(m: Message): Result<FaultReport, DecodeError> {
    var d := m.data;
    if m.sender != KERNEL_SENDER then Err(ForgedSender)
    else if |d| != FAULT_WIRE_BYTES then Err(WrongLength)
    else
      var t := TypeFromCode(d[8]);
      if t.None? then Err(UnknownFaultType)
      else if d[9] != SeverityCode(SeverityOf(t.value)) then Err(SeverityMismatch)
      else Ok(FaultReport(Word64(d[0..8]), t.value, SeverityOf(t.value), Word32(d[10..14]), Word64(d[14..22]), Word64(d[22..30])))
  }

  // ---- Encoding and decoding are mutually inverse ---------------------------

  lemma LayoutSlices(r: FaultReport)
    ensures var d := Layout(r);
            && d[0..8] == Le(r.eventId, 8) && d[8] == TypeCode(r.kind) && d[9] == SeverityCode(r.severity)
            && d[10..14] == Le(r.thread, 4) && d[14..22] == Le(r.pc, 8) && d[22..30] == Le(r.detail, 8)
  {
    hide Le, TypeCode, SeverityCode;
  }

  /** Every event survives the wire with every field equal. */
  lemma DecodeEncode(e: FaultEvent)
    ensures Decode(Wire(e)) == Ok(Report(e))
  {
    hide Le, FromLe, Layout, Pow256;
    LayoutSlices(Report(e));
    WordSizes();
    LeRoundTrip(e.eventId, 8);
    LeRoundTrip(e.thread, 4);
    LeRoundTrip(e.pc, 8);
    LeRoundTrip(e.detail, 8);
  }

  lemma CutLayout(d: seq<byte>)
    requires |d| == FAULT_WIRE_BYTES
    ensures d == d[0..8] + [d[8]] + [d[9]] + d[10..14] + d[14..22] + d[22..30]
  {
  }

  /** A message that decodes is, byte for byte, the encoding of what it decodes to. */
  lemma EncodeDecode(m: Message)
    requires Decode(m).Ok?
    ensures m == Message(KERNEL_SENDER, Layout(Decode(m).value))
  {
    hide Le, FromLe, Pow256;
    var d := m.data;
    CutLayout(d);
    FromLeRoundTrip(d[0..8]);
    FromLeRoundTrip(d[10..14]);
    FromLeRoundTrip(d[14..22]);
    FromLeRoundTrip(d[22..30]);
  }

  /** Exactly the encodings of events are accepted, and distinct reports have distinct encodings. */
  lemma DecodeAcceptsExactly(m: Message)
    ensures Decode(m).Ok? <==> exists e: FaultEvent :: Wire(e) == m
  {
    hide Layout, Word32, Word64;
    if Decode(m).Ok? {
      EncodeDecode(m);
      var r := Decode(m).value;
      var e: FaultEvent := RawFaultEvent.FaultEvent(r.eventId, r.kind, r.severity, r.thread, r.pc, r.detail, Created);
      assert Report(e) == r;
      assert Wire(e) == m;
    }
    if e: FaultEvent :| Wire(e) == m {
      DecodeEncode(e);
    }
  }

  // ---- The bytes themselves -------------------------------------------------

  /** Fault types and severities in the order of their codes. */
  function Kinds(): seq<FaultType> {
    [IllegalSyscall, InvalidCapability, PageFault, IllegalInstruction, WatchdogTimeout, DeadlineMiss, IPCViolation,
     KernelInvariantViolation]
  }

  function Severities(): seq<Severity> { [Info, Error, Critical, Fatal] }

  function At(d: seq<byte>, i: nat): nat
    requires i < |d|
  {
    d[i]
  }

  predicate FourBytes(d: seq<byte>, at: nat, n: nat)
    requires at + 4 <= |d|
  {
    n == At(d, at) + 0x100 * At(d, at + 1) + 0x1_0000 * At(d, at + 2) + 0x100_0000 * At(d, at + 3)
  }

  predicate EightBytes(d: seq<byte>, at: nat, n: nat)
    requires at + 8 <= |d|
  {
    n == At(d, at) + 0x100 * At(d, at + 1) + 0x1_0000 * At(d, at + 2) + 0x100_0000 * At(d, at + 3)
         + 0x1_0000_0000 * At(d, at + 4) + 0x100_0000_0000 * At(d, at + 5) + 0x1_0000_0000_0000 * At(d, at + 6)
         + 0x100_0000_0000_0000 * At(d, at + 7)
  }

  lemma TwoBytes(s: seq<byte>)
    requires |s| >= 2
    ensures FromLe(s) == At(s, 0) + 0x100 * At(s, 1) + 0x1_0000 * FromLe(s[2..])
  {
    assert s[1..][1..] == s[2..];
  }

  lemma FromFour(s: seq<byte>)
    requires |s| == 4
    ensures FourBytes(s, 0, FromLe(s))
  {
    hide FromLe;
    TwoBytes(s);
    TwoBytes(s[2..]);
    NoBytes(s[2..][2..]);
  }

  lemma FromEight(s: seq<byte>)
    requires |s| == 8
    ensures EightBytes(s, 0, FromLe(s))
  {
    hide FromLe;
    TwoBytes(s);
    var t := s[2..];
    TwoBytes(t);
    var u := t[2..];
    TwoBytes(u);
    TwoBytes(u[2..]);
    NoBytes(u[2..][2..]);
  }

  lemma NoBytes(s: seq<byte>)
    requires s == []
    ensures FromLe(s) == 0
  {
  }

  lemma FourFrom(d: seq<byte>, at: nat, n: u32)
    requires at + 4 <= |d| && d[at..at + 4] == Le(n, 4)
    ensures FourBytes(d, at, n)
  {
    hide Le, FromLe, Pow256;
    WordSizes();
    LeRoundTrip(n, 4);
    FromFour(d[at..at + 4]);
  }

  lemma EightFrom(d: seq<byte>, at: nat, n: u64)
    requires at + 8 <= |d| && d[at..at + 8] == Le(n, 8)
    ensures EightBytes(d, at, n)
  {
    hide Le, FromLe, Pow256;
    WordSizes();
    LeRoundTrip(n, 8);
    FromEight(d[at..at + 8]);
  }

  /**
   Every byte of a fault message: eight of the number of the event, the code of its
   type, that of its severity, four of the thread, eight of the program counter and
   eight of the detail, each least significant first, from sender 0.
   */
  lemma WireBytes(e: FaultEvent)
    ensures var d := Wire(e).data;
            && Wire(e).sender == 0 && |d| == 30
            && EightBytes(d, 0, e.eventId)
            && d[8] < 8 && Kinds()[d[8]] == e.kind
            && d[9] < 4 && Severities()[d[9]] == e.severity
            && FourBytes(d, 10, e.thread) && EightBytes(d, 14, e.pc) && EightBytes(d, 22, e.detail)
  {
    hide Le, Layout, FourBytes, EightBytes;
    LayoutSlices(Report(e));
    var d := Wire(e).data;
    EightFrom(d, 0, e.eventId);
    EightFrom(d, 14, e.pc);
    EightFrom(d, 22, e.detail);
    FourFrom(d, 10, e.thread);
  }

  /** Why a message is refused: not from the kernel, not 30 bytes, an unknown type, or a severity its type does not have. */
  lemma DecodeRefusals(m: Message)
    ensures Decode(m) == Err(ForgedSender) <==> m.sender != 0
    ensures Decode(m) == Err(WrongLength) <==> m.sender == 0 && |m.data| != 30
    ensures Decode(m) == Err(UnknownFaultType) <==> m.sender == 0 && |m.data| == 30 && m.data[8] > 7
    ensures Decode(m) == Err(SeverityMismatch) <==>
              m.sender == 0 && |m.data| == 30 && m.data[8] <= 7
              && m.data[9] != (if m.data[8] == 4 then 2 else if m.data[8] == 7 then 3 else 1)
  {
    hide FromLe;
  }

  // ---- The byte buffer ------------------------------------------------------

  /** Fills the buffer field by field. */
  method Encode(e: FaultEvent) returns (m: Message)
    ensures m == Wire(e)
    ensures Decode(m) == Ok(Report(e))
  {
    hide Le, TypeCode, SeverityCode, Decode;
    var buf := new byte[FAULT_WIRE_BYTES](_ => 0);
    CopyInto(buf, 0, Le(e.eventId, 8));
    assert buf[..8] == Le(e.eventId, 8);
    CopyInto(buf, 8, [TypeCode(e.kind)]);
    assert buf[..9] == Le(e.eventId, 8) + [TypeCode(e.kind)];
    CopyInto(buf, 9, [SeverityCode(e.severity)]);
    assert buf[..10] == Le(e.eventId, 8) + [TypeCode(e.kind)] + [SeverityCode(e.severity)];
    CopyInto(buf, 10, Le(e.thread, 4));
    assert buf[..14] == Le(e.eventId, 8) + [TypeCode(e.kind)] + [SeverityCode(e.severity)] + Le(e.thread, 4);
    CopyInto(buf, 14, Le(e.pc, 8));
    assert buf[..22] == Le(e.eventId, 8) + [TypeCode(e.kind)] + [SeverityCode(e.severity)] + Le(e.thread, 4) + Le(e.pc, 8);
    CopyInto(buf, 22, Le(e.detail, 8));
    m := Message(KERNEL_SENDER, buf[..]);
    DecodeEncode(e);
  }

  // ---- Policy ---------------------------------------------------------------

  /** The supervisor's decision. */
  function Decide(r: FaultReport): Decision {
    match r.kind
    case WatchdogTimeout => Restart
    case DeadlineMiss => if r.severity == Critical then Restart else Escalate
    case InvalidCapability => if r.severity == Critical then Quarantine else Escalate
    case KernelInvariantViolation => Escalate
    case _ => Kill
  }

  /**
   The supervisor decides as the kernel's default would, unless the fault is the
   kernel's own or a deadline or capability fault is marked critical.
   */
  lemma DecideIsDefault(r: FaultReport)
    ensures DefaultDecision(r.kind) == Some(Decide(r)) <==>
              r.kind != KernelInvariantViolation
              && !(r.severity == Critical && (r.kind == DeadlineMiss || r.kind == InvalidCapability))
  {
  }

  /** The kernel's default by the code of the fault. */
  lemma DefaultByCode(v: nat)
    requires v < 8
    ensures DefaultDecision(Kinds()[v]) ==
            [Some(Kill), Some(Escalate), Some(Kill), Some(Kill), Some(Restart), Some(Escalate), Some(Kill), None][v]
  {
  }

  /** No such marking decodes: on every accepted report of a user fault the two policies agree. */
  lemma AcceptedDecisionIsDefault(m: Message)
    requires Decode(m).Ok? && Decode(m).value.kind != KernelInvariantViolation
    ensures DefaultDecision(Decode(m).value.kind) == Some(Decide(Decode(m).value))
  {
    hide Word32, Word64;
    DecideIsDefault(Decode(m).value);
  }
}
