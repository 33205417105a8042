/** Monitor events and the fixed-buffer renderer of their serial lines. */
module MonitorLine {
  import opened Base
  import opened Fault

  datatype EventType =
    | TaskStarted | TaskExited | TaskFaulted | CapDenied | IpcDenied | PageFaulted
    | DeadlineMissed | WatchdogExpired | RecoveryApplied

  datatype Phase = Boot | Trap | Syscall | Sched | Ipc | FaultPhase | User

  datatype MonitorEvent = MonitorEvent(timestamp: u64, task: u32, kind: EventType, severity: Severity, phase: Phase,
                                       policy: Option<Decision>, cap: Option<u32>, syscall: Option<u64>)

  function TypeName(t: EventType): string {
    match t
    case TaskStarted => "TASK_STARTED"
    case TaskExited => "TASK_EXITED"
    case TaskFaulted => "TASK_FAULTED"
    case CapDenied => "CAP_DENIED"
    case IpcDenied => "IPC_DENIED"
    case PageFaulted => "PAGE_FAULT"
    case DeadlineMissed => "DEADLINE_MISSED"
    case WatchdogExpired => "WATCHDOG_TIMEOUT"
    case RecoveryApplied => "RECOVERY_APPLIED"
  }

  function SeverityName(s: Severity): string {
    match s
    case Info => "info"
    case Error => "error"
    case Critical => "critical"
    case Fatal => "fatal"
  }

  function PhaseName(p: Phase): string {
    match p
    case Boot => "boot"
    case Trap => "trap"
    case Syscall => "syscall"
    case Sched => "sched"
    case Ipc => "ipc"
    case FaultPhase => "fault"
    case User => "user"
  }

  function PolicyName(d: Decision): string {
    match d
    case Kill => "kill"
    case Restart => "restart"
    case Suspend => "suspend"
    case Quarantine => "quarantine"
    case Escalate => "escalate"
  }

  // ---- Decimal numbers ------------------------------------------------------

  function DigitChar(d: nat): char
    requires d < 10
  {
    '0' + d as char
  }

  /** Decimal digits without leading zeros. */
  function Dec(n: nat): string {
    if n < 10 then [DigitChar(n)] else Dec(n / 10) + [DigitChar(n % 10)]
  }

  function Pow10(k: nat): nat {
    if k == 0 then 1 else 10 * Pow10(k - 1)
  }

  lemma {:induction false} DecLength(n: nat, k: nat)
    requires 0 < k && n < Pow10(k)
    ensures 1 <= |Dec(n)| <= k
  {
    if n >= 10 {
      assert k > 1;
      DecLength(n / 10, k - 1);
    }
  }

  lemma WordLengths(n: u64, m: u32)
    ensures |Dec(n)| <= 20 && |Dec(m)| <= 10
  {
    assert Pow10(5) == 100_000;
    assert Pow10(10) == 10_000_000_000;
    assert Pow10(15) == 1_000_000_000_000_000;
    assert Pow10(20) == 100_000_000_000_000_000_000;
    DecLength(n, 20);
    DecLength(m, 10);
  }

  // ---- The line -------------------------------------------------------------

  function Token(f: Field): string { f.0 + "=" + f.1 }

  /** A leading word and then the fields, one space before each. */
  function Line(head: string, fs: seq<Field>): string {
    if fs == [] then head else Line(head, fs[..|fs| - 1]) + (" " + Token(fs[|fs| - 1]))
  }

  lemma LineSnoc(head: string, fs: seq<Field>, f: Field)
    ensures Line(head, fs + [f]) == Line(head, fs) + (" " + Token(f))
  {
    assert (fs + [f])[..|fs|] == fs;
  }

  /** The fields every event has, after its type. */
  function CoreFields(e: MonitorEvent): seq<Field> {
    [("ts", Dec(e.timestamp)), ("task", Dec(e.task)), ("sev", SeverityName(e.severity)), ("phase", PhaseName(e.phase))]
  }

  function PolicyField(e: MonitorEvent): seq<Field> { if e.policy.Some? then [("policy", PolicyName(e.policy.value))] else [] }
  function CapField(e: MonitorEvent): seq<Field> { if e.cap.Some? then [("cap", Dec(e.cap.value))] else [] }
  function SyscallField(e: MonitorEvent): seq<Field> { if e.syscall.Some? then [("syscall", Dec(e.syscall.value))] else [] }

  /** Absent optional fields are left out. */
  function Fields(e: MonitorEvent): seq<Field> {
    CoreFields(e) + PolicyField(e) + CapField(e) + SyscallField(e)
  }

  /** The line an event stands for. */
  function Text(e: MonitorEvent): string {
    Line("EVT", [("type", TypeName(e.kind))] + Fields(e))
  }

  const LINE_CAPACITY: nat := 192
  const MARKER := " !truncated"
  const WRITABLE: nat := LINE_CAPACITY - 11

  function Concat(pieces: seq<string>): string {
    if pieces == [] then "" else Concat(pieces[..|pieces| - 1]) + pieces[|pieces| - 1]
  }

  lemma ConcatSnoc(ps: seq<string>, s: string)
    ensures Concat(ps + [s]) == Concat(ps) + s
  {
    assert (ps + [s])[..|ps|] == ps;
  }

  /** As much of a text as fits. */
  function Clip(t: string, limit: nat): string { if |t| <= limit then t else t[..limit] }

  /** Writes into the first `limit` characters of a line buffer. */
  class BufWriter {
    const buf: array<char>
    const limit: nat
    var len: nat
    var overflow: bool

    ghost predicate Valid()
      reads this
    {
      len <= limit <= buf.Length
    }

    ghost function Contents(): string
      requires Valid()
      reads this, buf
    {
      buf[..len]
    }

    constructor (buf: array<char>, limit: nat)
      requires limit <= buf.Length
      ensures Valid() && this.buf == buf && this.limit == limit && len == 0 && !overflow && Contents() == ""
    {
      this.buf, this.limit := buf, limit;
      len, overflow := 0, false;
    }

    method WriteStr(s: string) returns (ok: bool)
      requires Valid()
      modifies this, buf
      ensures Valid()
      ensures ok <==> |old(Contents()) + s| <= limit
      ensures Contents() == Clip(old(Contents()) + s, limit)
      ensures overflow == (old(overflow) || !ok)
      ensures buf[limit..] == old(buf[limit..])
    {
      var space := limit - len;
      ok := |s| <= space;
      var n := if ok then |s| else space;
      CopyInto(buf, len, s[..n]);
      assert s[..|s|] == s;
      assert n == space ==> (old(Contents()) + s)[..limit] == old(Contents()) + s[..n];
      len := len + n;
      if !ok {
        overflow := true;
      }
    }

    /** The formatting macro: piece after piece until one does not fit. */
    method WritePieces(pieces: seq<string>) returns (ok: bool)
      requires Valid()
      modifies this, buf
      ensures Valid()
      ensures ok <==> |old(Contents()) + Concat(pieces)| <= limit
      ensures Contents() == Clip(old(Contents()) + Concat(pieces), limit)
      ensures overflow == (old(overflow) || !ok)
      ensures buf[limit..] == old(buf[limit..])
    {
      hide Concat;
      ok := true;
      var i := 0;
      ghost var was := old(Contents());
      EmptyConcat(pieces);
      while i < |pieces|
        invariant 0 <= i <= |pieces| && Valid()
        invariant Contents() == was + Concat(pieces[..i]) && overflow == old(overflow)
        invariant buf[limit..] == old(buf[limit..])
      {
        ConcatSnoc(pieces[..i], pieces[i]);
        assert pieces[..i + 1] == pieces[..i] + [pieces[i]];
        Assoc(was, Concat(pieces[..i]), pieces[i]);
        ok := WriteStr(pieces[i]);
        if !ok {
          ClipMore(was, pieces, i + 1, limit);
          return;
        }
        i := i + 1;
      }
      assert pieces[..i] == pieces;
    }
  }

  lemma EmptyConcat(ps: seq<string>)
    ensures Concat(ps[..0]) == ""
  {
  }

  lemma Assoc(a: string, b: string, c: string)
    ensures a + (b + c) == (a + b) + c
  {
  }

  /** Nothing written after an overflow would show. */
  lemma {:induction false} ClipMore(t: string, pieces: seq<string>, i: nat, limit: nat)
    requires i <= |pieces| && |t + Concat(pieces[..i])| > limit
    ensures |t + Concat(pieces)| > limit && Clip(t + Concat(pieces), limit) == Clip(t + Concat(pieces[..i]), limit)
    decreases |pieces|
  {
    if i == |pieces| {
      assert pieces[..i] == pieces;
    } else {
      var q := pieces[..|pieces| - 1];
      assert q[..i] == pieces[..i];
      ClipMore(t, q, i, limit);
      assert t + Concat(pieces) == (t + Concat(q)) + pieces[|pieces| - 1];
    }
  }

  // ---- Rendering ------------------------------------------------------------

  function CorePieces(e: MonitorEvent): seq<string> {
    ["EVT type=", TypeName(e.kind), " ts=", Dec(e.timestamp), " task=", Dec(e.task), " sev=", SeverityName(e.severity),
     " phase=", PhaseName(e.phase)]
  }

  function PolicyPieces(e: MonitorEvent): seq<string> { if e.policy.Some? then [" policy=", PolicyName(e.policy.value)] else [] }
  function CapPieces(e: MonitorEvent): seq<string> { if e.cap.Some? then [" cap=", Dec(e.cap.value)] else [] }
  function SyscallPieces(e: MonitorEvent): seq<string> { if e.syscall.Some? then [" syscall=", Dec(e.syscall.value)] else [] }

  function Joined(groups: seq<seq<string>>): string {
    if groups == [] then "" else Joined(groups[..|groups| - 1]) + Concat(groups[|groups| - 1])
  }

  lemma JoinedSnoc(gs: seq<seq<string>>, g: seq<string>)
    ensures Joined(gs + [g]) == Joined(gs) + Concat(g)
  {
    assert (gs + [g])[..|gs|] == gs;
  }

  lemma EmptyJoin(gs: seq<seq<string>>)
    ensures Joined(gs[..0]) == ""
  {
  }

  /** Once clipped, appending changes nothing. */
  lemma ClipStays(t: string, s: string, limit: nat)
    requires |t| > limit
    ensures Clip(t + s, limit) == Clip(t, limit)
  {
  }

  datatype EventLine = EventLine(text: string, truncated: bool)

  /**
   Writes the groups in turn, skipping the rest after an overflow; an overflowing
   line keeps what fitted and says so.
   */
  method RenderGroups(groups: seq<seq<string>>) returns (line: EventLine)
    ensures line.truncated <==> |Joined(groups)| > WRITABLE
    ensures line.text == Clip(Joined(groups), WRITABLE) + (if line.truncated then MARKER else "")
  {
    hide Joined, Concat;
    var buf := new char[LINE_CAPACITY];
    var w := new BufWriter(buf, WRITABLE);
    var ok := true;
    var i := 0;
    EmptyJoin(groups);
    while i < |groups|
      invariant 0 <= i <= |groups| && w.Valid() && w.buf == buf && w.limit == WRITABLE && fresh(w)
      invariant ok <==> |Joined(groups[..i])| <= WRITABLE
      invariant w.Contents() == Clip(Joined(groups[..i]), WRITABLE)
    {
      JoinedSnoc(groups[..i], groups[i]);
      assert groups[..i + 1] == groups[..i] + [groups[i]];
      if ok {
        ok := w.WritePieces(groups[i]);
      } else {
        ClipStays(Joined(groups[..i]), Concat(groups[i]), WRITABLE);
      }
      i := i + 1;
    }
    assert groups[..i] == groups;
    var len := w.len;
    if !ok {
      ghost var held := buf[..len];
      CopyInto(buf, len, MARKER);
      assert buf[..] == held + MARKER;
      len := len + 11;
    }
    line := EventLine(buf[..len], !ok);
  }

  /** Two pieces, a key's and its value's, append one field. */
  lemma FieldPieces(head: string, fs: seq<Field>, key: string, lead: string, value: string)
    requires lead == " " + key + "="
    ensures Line(head, fs + [(key, value)]) == Line(head, fs) + Concat([lead, value])
  {
    LineSnoc(head, fs, (key, value));
    PairConcat(lead, value);
    assert " " + Token((key, value)) == lead + value;
  }

  lemma PairConcat(a: string, b: string)
    ensures Concat([a, b]) == a + b
  {
    ConcatSnoc([a], b);
    ConcatSnoc([], a);
    assert [a] + [b] == [a, b] && [] + [a] == [a];
  }

  /** Consecutive groups of pieces append their texts. */
  lemma {:induction false} ConcatAppend(ps: seq<string>, qs: seq<string>)
    ensures Concat(ps + qs) == Concat(ps) + Concat(qs)
    decreases |qs|
  {
    if qs == [] {
      assert ps + qs == ps;
    } else {
      var q, s := qs[..|qs| - 1], qs[|qs| - 1];
      ConcatAppend(ps, q);
      assert qs == q + [s];
      assert ps + qs == (ps + q) + [s];
      ConcatSnoc(ps + q, s);
      ConcatSnoc(q, s);
      hide Concat;
      Assoc(Concat(ps), Concat(q), s);
    }
  }

  /** The fixed part of the line. */
  lemma CoreText(e: MonitorEvent)
    ensures Concat(CorePieces(e)) == Line("EVT", [("type", TypeName(e.kind))] + CoreFields(e))
  {
    hide Concat, Line, TypeName, SeverityName, PhaseName, Dec;
    var f0, f1, f2, f3, f4 := ("type", TypeName(e.kind)), ("ts", Dec(e.timestamp)), ("task", Dec(e.task)),
      ("sev", SeverityName(e.severity)), ("phase", PhaseName(e.phase));
    var p0, p1, p2, p3, p4 := ["EVT type=", TypeName(e.kind)], [" ts=", Dec(e.timestamp)], [" task=", Dec(e.task)],
      [" sev=", SeverityName(e.severity)], [" phase=", PhaseName(e.phase)];
    FirstField(TypeName(e.kind));
    FieldPieces("EVT", [f0], "ts", " ts=", f1.1);
    ConcatAppend(p0, p1);
    FieldPieces("EVT", [f0] + [f1], "task", " task=", f2.1);
    ConcatAppend(p0 + p1, p2);
    FieldPieces("EVT", [f0] + [f1] + [f2], "sev", " sev=", f3.1);
    ConcatAppend(p0 + p1 + p2, p3);
    FieldPieces("EVT", [f0] + [f1] + [f2] + [f3], "phase", " phase=", f4.1);
    ConcatAppend(p0 + p1 + p2 + p3, p4);
    assert [f0] + [f1] + [f2] + [f3] + [f4] == [f0] + CoreFields(e);
    assert p0 + p1 + p2 + p3 + p4 == CorePieces(e);
  }

  lemma FirstField(name: string)
    ensures Concat(["EVT type=", name]) == Line("EVT", [("type", name)])
  {
    PairConcat("EVT type=", name);
    LineSnoc("EVT", [], ("type", name));
    assert [] + [("type", name)] == [("type", name)];
    assert "EVT" + (" " + Token(("type", name))) == "EVT type=" + name;
  }

  /** An optional group adds its field, or nothing. */
  lemma OptionalText(fs: seq<Field>, opt: seq<Field>, pieces: seq<string>, key: string, lead: string, value: string)
    requires lead == " " + key + "="
    requires (opt == [(key, value)] && pieces == [lead, value]) || (opt == [] && pieces == [])
    ensures Line("EVT", fs + opt) == Line("EVT", fs) + Concat(pieces)
  {
    if opt == [] {
      assert fs + opt == fs;
    } else {
      FieldPieces("EVT", fs, key, lead, value);
    }
  }

  function Groups(e: MonitorEvent): seq<seq<string>> {
    [CorePieces(e), PolicyPieces(e), CapPieces(e), SyscallPieces(e)]
  }

  lemma JoinedFour(a: seq<string>, b: seq<string>, c: seq<string>, d: seq<string>)
    ensures Joined([a, b, c, d]) == Concat(a) + Concat(b) + Concat(c) + Concat(d)
  {
    hide Concat;
    assert [a, b, c, d] == [] + [a] + [b] + [c] + [d];
    JoinedSnoc([] + [a] + [b] + [c], d);
    JoinedSnoc([] + [a] + [b], c);
    JoinedSnoc([] + [a], b);
    JoinedSnoc([], a);
  }

  /** What rendering writes, unclipped, is the event's line. */
  lemma GroupsText(e: MonitorEvent)
    ensures Joined(Groups(e)) == Text(e)
  {
    hide Concat, Joined, Line, CorePieces, CoreFields, TypeName, PolicyName, Dec;
    var fs := [("type", TypeName(e.kind))] + CoreFields(e);
    CoreText(e);
    JoinedFour(CorePieces(e), PolicyPieces(e), CapPieces(e), SyscallPieces(e));
    OptionalText(fs, PolicyField(e), PolicyPieces(e), "policy", " policy=",
                 if e.policy.Some? then PolicyName(e.policy.value) else "");
    fs := fs + PolicyField(e);
    OptionalText(fs, CapField(e), CapPieces(e), "cap", " cap=", if e.cap.Some? then Dec(e.cap.value) else "");
    fs := fs + CapField(e);
    OptionalText(fs, SyscallField(e), SyscallPieces(e), "syscall", " syscall=",
                 if e.syscall.Some? then Dec(e.syscall.value) else "");
    assert fs + SyscallField(e) == [("type", TypeName(e.kind))] + Fields(e);
  }

  lemma NameLengths(e: MonitorEvent)
    ensures |TypeName(e.kind)| <= 16 && |SeverityName(e.severity)| <= 8 && |PhaseName(e.phase)| <= 7
    ensures e.policy.Some? ==> |PolicyName(e.policy.value)| <= 10
  {
  }

  lemma CoreLength(e: MonitorEvent)
    ensures |Concat(CorePieces(e))| ==
            31 + |TypeName(e.kind)| + |Dec(e.timestamp)| + |Dec(e.task)| + |SeverityName(e.severity)| + |PhaseName(e.phase)|
  {
    hide TypeName, SeverityName, PhaseName, Dec, Concat;
    var p := CorePieces(e);
    var a, b, c, d := p[..2], p[..4], p[..6], p[..8];
    assert a == [] + [p[0], p[1]] && b == a + [p[2], p[3]] && c == b + [p[4], p[5]] && d == c + [p[6], p[7]]
        && p == d + [p[8], p[9]];
    NothingWritten();
    PairLength([], p[0], p[1]);
    PairLength(a, p[2], p[3]);
    PairLength(b, p[4], p[5]);
    PairLength(c, p[6], p[7]);
    PairLength(d, p[8], p[9]);
  }

  lemma NothingWritten()
    ensures Concat([]) == ""
  {
  }

  lemma PairLength(ps: seq<string>, x: string, y: string)
    ensures |Concat(ps + [x, y])| == |Concat(ps)| + |x| + |y|
  {
    ConcatAppend(ps, [x, y]);
    PairConcat(x, y);
    hide Concat;
  }

  lemma OptionalLength(lead: string, value: string)
    ensures |Concat([lead, value])| == |lead| + |value| && |Concat([])| == 0
  {
    PairConcat(lead, value);
  }

  /** The length of a line, field by field. */
  lemma TextLength(e: MonitorEvent)
    ensures |Text(e)| ==
            31 + |TypeName(e.kind)| + |Dec(e.timestamp)| + |Dec(e.task)| + |SeverityName(e.severity)| + |PhaseName(e.phase)|
            + (if e.policy.Some? then 8 + |PolicyName(e.policy.value)| else 0)
            + (if e.cap.Some? then 5 + |Dec(e.cap.value)| else 0)
            + (if e.syscall.Some? then 9 + |Dec(e.syscall.value)| else 0)
  {
    hide Concat, Joined, Text, CorePieces, TypeName, PolicyName, Dec, SeverityName, PhaseName;
    GroupsText(e);
    JoinedFour(CorePieces(e), PolicyPieces(e), CapPieces(e), SyscallPieces(e));
    CoreLength(e);
    OptionalLength(" policy=", if e.policy.Some? then PolicyName(e.policy.value) else "");
    OptionalLength(" cap=", if e.cap.Some? then Dec(e.cap.value) else "");
    OptionalLength(" syscall=", if e.syscall.Some? then Dec(e.syscall.value) else "");
  }

  /** No event's line is longer than 154 characters, so every line fits before the marker's reserve. */
  lemma TextFits(e: MonitorEvent)
    ensures |Text(e)| <= 154 < WRITABLE
  {
    hide Text, TypeName, PolicyName, Dec, SeverityName, PhaseName;
    TextLength(e);
    NameLengths(e);
    WordLengths(e.timestamp, e.task);
    WordLengths(if e.syscall.Some? then e.syscall.value else 0, if e.cap.Some? then e.cap.value else 0);
  }

  lemma {:induction false} DecAtLeast(n: nat, k: nat)
    requires Pow10(k) <= n
    ensures |Dec(n)| >= k + 1
  {
    if k > 0 {
      DecAtLeast(n / 10, k - 1);
    }
  }

  /** The longest line there is. */
  function Longest(): MonitorEvent {
    MonitorEvent(TWO64 - 1, TWO32 - 1, WatchdogExpired, Critical, Syscall, Some(Quarantine), Some(TWO32 - 1), Some(TWO64 - 1))
  }

  lemma LongestIs154()
    ensures |Text(Longest())| == 154
  {
    hide Text, Dec;
    TextLength(Longest());
    WordLengths(TWO64 - 1, TWO32 - 1);
    assert Pow10(4) == 10_000;
    assert Pow10(9) == 1_000_000_000;
    assert Pow10(14) == 100_000_000_000_000;
    assert Pow10(19) == 10_000_000_000_000_000_000;
    DecAtLeast(TWO64 - 1, 19);
    DecAtLeast(TWO32 - 1, 9);
  }

  /** Rendering never truncates: the line is the event's text. */
  method Render(e: MonitorEvent) returns (line: EventLine)
    ensures line == EventLine(Text(e), false)
  {
    hide Text;
    GroupsText(e);
    TextFits(e);
    line := RenderGroups(Groups(e));
    assert Clip(Text(e), WRITABLE) + "" == Text(e);
  }
}
