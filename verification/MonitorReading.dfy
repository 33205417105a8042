/**
 What a monitor line says, read without the writer: decimal numbers by their
 digits and words by their own tables. The line of an event says exactly that event.
 */
module MonitorReading {
  import opened Base
  import opened Fault
  import opened MonitorLine
  import opened EventLog
  import opened MonitorRoundTrip

  type MonitorKind = MonitorLine.EventType

  // ---- Numbers --------------------------------------------------------------

  predicate Digits(s: string) { s != "" && forall i | 0 <= i < |s| :: '0' <= s[i] <= '9' }

  /** The number a string of digits stands for: ten times what stands before the last digit, and the digit. */
  function Value(s: string): nat
    requires forall i | 0 <= i < |s| :: '0' <= s[i] <= '9'
  {
    if s == "" then 0 else 10 * Value(s[..|s| - 1]) + (s[|s| - 1] as int - '0' as int)
  }

  /** `s` is the number `n` in decimal, with no digit to spare. */
  predicate Reads(s: string, n: nat) { Digits(s) && Value(s) == n && (|s| > 1 ==> s[0] != '0') }

  lemma {:induction false} DecReads(n: nat)
    ensures Reads(Dec(n), n) && (n > 0 ==> Dec(n)[0] != '0')
  {
    if n < 10 {
      assert Dec(n)[..0] == "";
    } else {
      DecReads(n / 10);
      var s := Dec(n);
      assert s[..|s| - 1] == Dec(n / 10);
    }
  }

  // ---- Words ----------------------------------------------------------------

  function KindOf(s: string): Option<MonitorKind> {
    if s == "TASK_STARTED" then Some(TaskStarted)
    else if s == "TASK_EXITED" then Some(TaskExited)
    else if s == "TASK_FAULTED" then Some(TaskFaulted)
    else if s == "CAP_DENIED" then Some(CapDenied)
    else if s == "IPC_DENIED" then Some(IpcDenied)
    else if s == "PAGE_FAULT" then Some(PageFaulted)
    else if s == "DEADLINE_MISSED" then Some(DeadlineMissed)
    else if s == "WATCHDOG_TIMEOUT" then Some(WatchdogExpired)
    else if s == "RECOVERY_APPLIED" then Some(RecoveryApplied)
    else None
  }

  function SeverityOf(s: string): Option<Severity> {
    if s == "info" then Some(Info)
    else if s == "error" then Some(Error)
    else if s == "critical" then Some(Critical)
    else if s == "fatal" then Some(Fatal)
    else None
  }

  function PhaseOf(s: string): Option<Phase> {
    if s == "boot" then Some(MonitorLine.Boot)
    else if s == "trap" then Some(Trap)
    else if s == "syscall" then Some(MonitorLine.Syscall)
    else if s == "sched" then Some(Sched)
    else if s == "ipc" then Some(MonitorLine.Ipc)
    else if s == "fault" then Some(FaultPhase)
    else if s == "user" then Some(User)
    else None
  }

  function PolicyOf(s: string): Option<Decision> {
    if s == "kill" then Some(Kill)
    else if s == "restart" then Some(Restart)
    else if s == "suspend" then Some(Suspend)
    else if s == "quarantine" then Some(Quarantine)
    else if s == "escalate" then Some(Escalate)
    else None
  }

  lemma KindReads(t: MonitorKind)
    ensures KindOf(TypeName(t)) == Some(t)
  {
    var s := TypeName(t);
    assert "TASK_STARTED"[5] == 'S' && "TASK_EXITED"[5] == 'E' && "TASK_FAULTED"[5] == 'F';
    assert "CAP_DENIED"[0] == 'C' && "IPC_DENIED"[0] == 'I' && "PAGE_FAULT"[0] == 'P';
    assert "DEADLINE_MISSED"[0] == 'D' && "WATCHDOG_TIMEOUT"[0] == 'W' && "RECOVERY_APPLIED"[0] == 'R';
    assert "TASK_STARTED"[0] == 'T' && "TASK_EXITED"[0] == 'T' && "TASK_FAULTED"[0] == 'T';
  }

  lemma SeverityReads(s: Severity)
    ensures SeverityOf(SeverityName(s)) == Some(s)
  {
    assert "info"[0] == 'i' && "error"[0] == 'e' && "critical"[0] == 'c' && "fatal"[0] == 'f';
  }

  lemma PhaseReads(p: Phase)
    ensures PhaseOf(PhaseName(p)) == Some(p)
  {
    assert "boot"[0] == 'b' && "trap"[0] == 't' && "syscall"[0] == 's' && "sched"[0] == 's' && "ipc"[0] == 'i'
           && "fault"[0] == 'f' && "user"[0] == 'u';
    assert "syscall"[1] == 'y' && "sched"[1] == 'c';
  }

  lemma PolicyReads(d: Decision)
    ensures PolicyOf(PolicyName(d)) == Some(d)
  {
    assert "kill"[0] == 'k' && "restart"[0] == 'r' && "suspend"[0] == 's' && "quarantine"[0] == 'q' && "escalate"[0] == 'e';
  }

  // ---- Lines ----------------------------------------------------------------

  /** The value of the first field with the key. */
  function ValueOf(fs: seq<Field>, key: string): Option<string> {
    var i := Find(fs, key);
    if i < |fs| then Some(fs[i].1) else None
  }

  predicate SaysNumber(fs: seq<Field>, key: string, n: nat) {
    ValueOf(fs, key).Some? && Reads(ValueOf(fs, key).value, n)
  }

  predicate SaysOptional(fs: seq<Field>, key: string, n: Option<nat>) {
    if n.Some? then SaysNumber(fs, key, n.value) else ValueOf(fs, key).None?
  }

  predicate SaysPolicy(fs: seq<Field>, d: Option<Decision>) {
    var s := ValueOf(fs, "policy");
    if d.Some? then s.Some? && PolicyOf(s.value) == d else s.None?
  }

  /** The fields say what happened to whom, when and where, and what was decided. */
  predicate FieldsSay(fs: seq<Field>, e: MonitorEvent) {
    var sev, phase := ValueOf(fs, "sev"), ValueOf(fs, "phase");
    && SaysNumber(fs, "ts", e.timestamp) && SaysNumber(fs, "task", e.task)
    && sev.Some? && SeverityOf(sev.value) == Some(e.severity)
    && phase.Some? && PhaseOf(phase.value) == Some(e.phase)
    && SaysPolicy(fs, e.policy) && SaysOptional(fs, "cap", e.cap) && SaysOptional(fs, "syscall", e.syscall)
  }

  /** The parser takes the line for an event of that kind, with no flags, whose fields say it. */
  predicate Says(line: string, e: MonitorEvent) {
    var p := Parse(line);
    p.Some? && p.value.flags == [] && KindOf(p.value.kind) == Some(e.kind) && FieldsSay(p.value.fields, e)
  }

  lemma ValueIs(fs: seq<Field>, key: string, i: nat)
    requires i <= |fs| && (i < |fs| ==> fs[i].0 == key) && (forall k | 0 <= k < i :: fs[k].0 != key)
    ensures ValueOf(fs, key) == if i < |fs| then Some(fs[i].1) else None
  {
    FoundIs(fs, key, i);
  }

  lemma KeysApart()
    ensures "ts" != "task" && "ts" != "sev" && "ts" != "phase" && "task" != "sev" && "task" != "phase" && "sev" != "phase"
    ensures forall k | k in ["policy", "cap", "syscall"] :: k !in ["ts", "task", "sev", "phase"]
    ensures "policy" != "cap" && "policy" != "syscall" && "cap" != "syscall"
  {
    assert "task"[0] == 't' && "sev"[0] == 's' && "phase"[0] == 'p';
    assert "policy"[0] == 'p' && "cap"[0] == 'c' && "syscall"[0] == 's';
  }

  lemma CoreSays(e: MonitorEvent)
    ensures var fs := Fields(e);
            && ValueOf(fs, "ts") == Some(Dec(e.timestamp)) && ValueOf(fs, "task") == Some(Dec(e.task))
            && ValueOf(fs, "sev") == Some(SeverityName(e.severity)) && ValueOf(fs, "phase") == Some(PhaseName(e.phase))
  {
    hide Dec, SeverityName, PhaseName, ValueOf, PolicyName;
    KeysApart();
    var fs := Fields(e);
    assert fs[..4] == CoreFields(e);
    assert fs[0] == CoreFields(e)[0] && fs[1] == CoreFields(e)[1] && fs[2] == CoreFields(e)[2] && fs[3] == CoreFields(e)[3];
    ValueIs(fs, "ts", 0);
    ValueIs(fs, "task", 1);
    ValueIs(fs, "sev", 2);
    ValueIs(fs, "phase", 3);
  }

  lemma OptionalSays(e: MonitorEvent)
    ensures var fs := Fields(e);
            && ValueOf(fs, "policy") == (if e.policy.Some? then Some(PolicyName(e.policy.value)) else None)
            && ValueOf(fs, "cap") == (if e.cap.Some? then Some(Dec(e.cap.value)) else None)
            && ValueOf(fs, "syscall") == (if e.syscall.Some? then Some(Dec(e.syscall.value)) else None)
  {
    hide Dec, SeverityName, PhaseName, ValueOf, PolicyName;
    KeysApart();
    var fs := Fields(e);
    var n := 4;
    var a := if e.policy.Some? then n + 1 else n;
    var b := if e.cap.Some? then a + 1 else a;
    assert fs[0].0 == "ts" && fs[1].0 == "task" && fs[2].0 == "sev" && fs[3].0 == "phase";
    assert e.policy.Some? ==> fs[n] == ("policy", PolicyName(e.policy.value));
    assert e.cap.Some? ==> fs[a] == ("cap", Dec(e.cap.value));
    assert e.syscall.Some? ==> fs[b] == ("syscall", Dec(e.syscall.value));
    ValueIs(fs, "policy", if e.policy.Some? then n else |fs|);
    ValueIs(fs, "cap", if e.cap.Some? then a else |fs|);
    ValueIs(fs, "syscall", if e.syscall.Some? then b else |fs|);
  }

  /** The line of an event, parsed, says exactly that event: every number, word and absence. */
  lemma LineSaysEvent(e: MonitorEvent)
    ensures Says(Text(e), e)
  {
    hide Dec, TypeName, SeverityName, PhaseName, PolicyName, Fields, Text, Parse, ValueOf, KindOf, SeverityOf, PhaseOf, PolicyOf,
      Reads, CategoryOf;
    LineRoundTrip(e);
    KindReads(e.kind);
    CoreSays(e);
    OptionalSays(e);
    DecReads(e.timestamp);
    DecReads(e.task);
    SeverityReads(e.severity);
    PhaseReads(e.phase);
    if e.policy.Some? {
      PolicyReads(e.policy.value);
    }
    if e.cap.Some? {
      DecReads(e.cap.value);
    }
    if e.syscall.Some? {
      DecReads(e.syscall.value);
    }
  }

  /** A line says at most one event. */
  lemma SaysOnlyOne(line: string, e: MonitorEvent, f: MonitorEvent)
    requires Says(line, e) && Says(line, f)
    ensures e == f
  {
    hide Parse, ValueOf, KindOf, SeverityOf, PhaseOf, PolicyOf, Digits, Value;
  }

  /** Two events with the same line are the same event. */
  lemma LinesAreDistinct(e: MonitorEvent, f: MonitorEvent)
    requires Text(e) == Text(f)
    ensures e == f
  {
    hide Says, Text;
    LineSaysEvent(e);
    LineSaysEvent(f);
    SaysOnlyOne(Text(e), e, f);
  }
}
