/** The serial log parser: lines to categorised events, and whole logs to numbered ones. */
module EventLog {
  import opened Base

  datatype Category =
    | Task | Scheduler | Syscall | Ipc | Capability | Fault | Watchdog | Recovery | Timer | Service | Boot
    | Driver | Network | Loader

  datatype Event = Event(number: nat, category: Category, kind: string, flags: seq<string>, fields: seq<Field>, raw: string)

  datatype ParsedLog = ParsedLog(events: seq<Event>, skipped: nat)

  // ---- Text -----------------------------------------------------------------

  /** The Unicode white space characters. */
  predicate IsSpace(c: char) {
    var x := c as int;
    || 0x9 <= x <= 0xD || x == 0x20 || x == 0x85 || x == 0xA0 || x == 0x1680 || 0x2000 <= x <= 0x200A
    || x == 0x2028 || x == 0x2029 || x == 0x202F || x == 0x205F || x == 0x3000
  }

  predicate Blank(s: string) { forall i | 0 <= i < |s| :: IsSpace(s[i]) }
  predicate Solid(s: string) { s != "" && forall i | 0 <= i < |s| :: !IsSpace(s[i]) }

  function TrimEnd(s: string): string {
    if s != "" && IsSpace(s[|s| - 1]) then TrimEnd(s[..|s| - 1]) else s
  }

  /** Where the last word of a string that ends in one begins. */
  function WordStart(s: string): (i: nat)
    ensures i <= |s| && (forall k | i <= k < |s| :: !IsSpace(s[k])) && (i > 0 ==> IsSpace(s[i - 1]))
  {
    if s == "" || IsSpace(s[|s| - 1]) then |s| else WordStart(s[..|s| - 1])
  }

  /** The maximal runs of non-space characters, in order. */
  function Words(s: string): (ws: seq<string>)
    ensures forall i | 0 <= i < |ws| :: Solid(ws[i])
    decreases |s|
  {
    if s == "" then []
    else if IsSpace(s[|s| - 1]) then Words(s[..|s| - 1])
    else Words(s[..WordStart(s)]) + [s[WordStart(s)..]]
  }

  /** Position of the first `=`, or the length. */
  function FindEq(s: string): (i: nat)
    ensures i <= |s| && '=' !in s[..i] && (i < |s| ==> s[i] == '=')
  {
    if s == "" || s[0] == '=' then 0 else 1 + FindEq(s[1..])
  }

  function SplitOnce(s: string): Option<Field> {
    var i := FindEq(s);
    if i == |s| then None else Some((s[..i], s[i + 1..]))
  }

  // ---- One line -------------------------------------------------------------

  predicate IsField(tok: string) {
    var f := SplitOnce(tok);
    f.Some? && f.value.0 != ""
  }

  function FieldsIn(toks: seq<string>): seq<Field> {
    if toks == [] then []
    else
      var t := toks[|toks| - 1];
      FieldsIn(toks[..|toks| - 1]) + (if IsField(t) then [SplitOnce(t).value] else [])
  }

  function FlagsIn(toks: seq<string>): seq<string> {
    if toks == [] then []
    else
      var t := toks[|toks| - 1];
      FlagsIn(toks[..|toks| - 1]) + (if IsField(t) then [] else [t])
  }

  /** Index of the first field with the key, or the length. */
  function Find(fs: seq<Field>, key: string): (i: nat)
    ensures i <= |fs| && (i < |fs| ==> fs[i].0 == key) && (forall k | 0 <= k < i :: fs[k].0 != key)
  {
    if fs == [] || fs[0].0 == key then 0 else 1 + Find(fs[1..], key)
  }

  predicate IsDriverKind(k: string) {
    k == "DEVICE" || k == "DEVICE_DENIED" || k == "MMIO" || k == "MMIO_DENIED" || k == "DMA" || k == "DMA_DENIED"
    || k == "IRQ" || k == "IRQ_DENIED" || k == "IRQ_DROPPED" || k == "DRIVER" || k == "DRIVER_MANAGER"
  }

  predicate IsNetworkKind(k: string) {
    k == "NET_DRIVER" || k == "NET_SERVICE" || k == "NET_TX" || k == "NET_RX" || k == "NET_DENIED"
  }

  function Categorize(kind: string, fs: seq<Field>): Option<Category> {
    if kind == "TASK_STARTED" || kind == "TASK_EXITED" || kind == "TASK_FAULTED" then Some(Task)
    else if kind == "SCHED" then Some(Scheduler)
    else if kind == "SYSCALL" then Some(Syscall)
    else if kind == "IPC" || kind == "IPC_DENIED" then Some(Ipc)
    else if kind == "CAP_DENIED" then Some(Capability)
    else if kind == "FAULT" then
      var i := Find(fs, "type");
      Some(if i < |fs| && fs[i].1 == "WatchdogTimeout" then Watchdog else Fault)
    else if kind == "PAGE_FAULT" || kind == "DEADLINE_MISSED" || kind == "CONTAIN" then Some(Fault)
    else if kind == "WATCHDOG_TIMEOUT" then Some(Watchdog)
    else if kind == "RECOVERY_APPLIED" then Some(Recovery)
    else if kind == "TIMER" then Some(Timer)
    else if kind == "SUPERVISOR" || kind == "LOGGER" then Some(Service)
    else if kind == "MMU" || kind == "BOOT" || kind == "BOOT_INFO" then Some(Boot)
    else if IsDriverKind(kind) then Some(Driver)
    else if IsNetworkKind(kind) then Some(Network)
    else if kind == "APP_IMAGE" then Some(Loader)
    else None
  }

  const BANNER := "AxiomRT kernel booted"

  /** A line's first word and the words its fields come from; a bare `key=value` word is its own first field. */
  function Head(ws: seq<string>): Option<(string, seq<string>)>
    requires ws != []
  {
    var f := SplitOnce(ws[0]);
    if f.None? then Some((ws[0], ws[1..]))
    else if f.value.0 == "" || f.value.1 == "" then None
    else Some(("BOOT_INFO", ws))
  }

  /** A monitor line's kind is the value of its `type` field, which is then dropped. */
  function Effective(kind: string, fs: seq<Field>): Option<(string, seq<Field>)> {
    if kind != "EVT" then Some((kind, fs))
    else
      var i := Find(fs, "type");
      if i == |fs| then None else Some((fs[i].1, fs[..i] + fs[i + 1..]))
  }

  function Classified(kind: string, flags: seq<string>, fs: seq<Field>, raw: string): Option<Event> {
    var k := Effective(kind, fs);
    if k.None? then None
    else
      var c := Categorize(k.value.0, k.value.1);
      if c.None? then None else Some(Event(0, c.value, k.value.0, flags, k.value.1, raw))
  }

  function Parse(line: string): Option<Event> {
    var t := TrimEnd(line);
    if Blank(t) then None
    else if t == BANNER then Some(Event(0, Boot, "BOOT", [], [], t))
    else
      var ws := Words(t);
      if ws == [] then None
      else
        var h := Head(ws);
        if h.None? then None else Classified(h.value.0, FlagsIn(h.value.1), FieldsIn(h.value.1), t)
  }

  /** The parser's loop over the words, and its search for `type`. */
  method ParseLine(line: string) returns (r: Option<Event>)
    ensures r == Parse(line)
  {
    hide Words, TrimEnd, Categorize, FlagsIn, FieldsIn, Head, Blank, Find;
    var trimmed := TrimEnd(line);
    if Blank(trimmed) {
      return None;
    }
    if trimmed == BANNER {
      return Some(Event(0, Boot, "BOOT", [], [], trimmed));
    }
    var ws := Words(trimmed);
    if ws == [] {
      return None;
    }
    var head := Head(ws);
    if head.None? {
      return None;
    }
    var (kind, rest) := head.value;
    var flags, fields := Sort(rest);
    if kind == "EVT" {
      var pos := Position(fields, "type");
      if pos == |fields| {
        return None;
      }
      kind, fields := fields[pos].1, fields[..pos] + fields[pos + 1..];
    }
    var category := Categorize(kind, fields);
    if category.None? {
      return None;
    }
    r := Some(Event(0, category.value, kind, flags, fields, trimmed));
  }

  method Sort(rest: seq<string>) returns (flags: seq<string>, fields: seq<Field>)
    ensures flags == FlagsIn(rest) && fields == FieldsIn(rest)
  {
    flags, fields := [], [];
    var i := 0;
    while i < |rest|
      invariant 0 <= i <= |rest|
      invariant flags == FlagsIn(rest[..i]) && fields == FieldsIn(rest[..i])
    {
      assert rest[..i + 1][..i] == rest[..i];
      var f := SplitOnce(rest[i]);
      if f.Some? && f.value.0 != "" {
        fields := fields + [f.value];
      } else {
        flags := flags + [rest[i]];
      }
      i := i + 1;
    }
    assert rest[..i] == rest;
  }

  method Position(fs: seq<Field>, key: string) returns (i: nat)
    ensures i == Find(fs, key)
  {
    i := 0;
    while i < |fs|
      invariant 0 <= i <= |fs| && (forall k | 0 <= k < i :: fs[k].0 != key)
    {
      if fs[i].0 == key {
        break;
      }
      i := i + 1;
    }
    FoundIs(fs, key, i);
  }

  lemma FoundIs(fs: seq<Field>, key: string, i: nat)
    requires i <= |fs| && (i < |fs| ==> fs[i].0 == key) && (forall k | 0 <= k < i :: fs[k].0 != key)
    ensures Find(fs, key) == i
  {
  }

  // ---- What the parts mean --------------------------------------------------

  /** Sorting the words goes word by word, keeping their order. */
  lemma {:induction false} SortingAppends(a: seq<string>, b: seq<string>)
    ensures FieldsIn(a + b) == FieldsIn(a) + FieldsIn(b) && FlagsIn(a + b) == FlagsIn(a) + FlagsIn(b)
  {
    hide IsField, SplitOnce, FindEq;
    if b == [] {
      assert a + b == a;
    } else {
      var c := b[..|b| - 1];
      SortingAppends(a, c);
      assert (a + b)[..|a + b| - 1] == a + c;
    }
  }

  /** A word with a key before its first `=` is a field, and any other word is a flag as it stands. */
  lemma SortingOne(k: string, v: string, flag: string)
    requires k != "" && '=' !in k && ('=' !in flag || flag[0] == '=')
    ensures FieldsIn([k + "=" + v]) == [(k, v)] && FlagsIn([k + "=" + v]) == []
    ensures FieldsIn([flag]) == [] && FlagsIn([flag]) == [flag]
  {
    FirstEq(k, v);
    assert (k + "=" + v)[..|k|] == k && (k + "=" + v)[|k| + 1..] == v;
    assert [flag][..0] == [] && [k + "=" + v][..0] == [];
    if '=' in flag {
      assert FindEq(flag) == 0;
    } else {
      assert FindEq(flag) == |flag|;
    }
  }

  lemma {:induction false} FirstEq(k: string, v: string)
    requires '=' !in k
    ensures FindEq(k + "=" + v) == |k|
  {
    if k != "" {
      FirstEq(k[1..], v);
      assert (k + "=" + v)[1..] == k[1..] + "=" + v;
    }
  }

  /** A line that starts with a bare `key=value` is boot information with that field first; a half-empty one is no line. */
  lemma HeadOfLine(k: string, v: string, word: string, rest: seq<string>)
    requires '=' !in k && '=' !in word
    ensures Head([k + "=" + v] + rest) == if k == "" || v == "" then None else Some(("BOOT_INFO", [k + "=" + v] + rest))
    ensures Head([word] + rest) == Some((word, rest))
  {
    FirstEq(k, v);
    assert (k + "=" + v)[..|k|] == k && (k + "=" + v)[|k| + 1..] == v;
    assert FindEq(word) == |word|;
    assert ([word] + rest)[1..] == rest;
  }

  /** The kinds of line each category collects, besides the watchdog's faults. */
  function KindsOf(c: Category): set<string> {
    match c
    case Task => {"TASK_STARTED", "TASK_EXITED", "TASK_FAULTED"}
    case Scheduler => {"SCHED"}
    case Syscall => {"SYSCALL"}
    case Ipc => {"IPC", "IPC_DENIED"}
    case Capability => {"CAP_DENIED"}
    case Fault => {"FAULT", "PAGE_FAULT", "DEADLINE_MISSED", "CONTAIN"}
    case Watchdog => {"WATCHDOG_TIMEOUT"}
    case Recovery => {"RECOVERY_APPLIED"}
    case Timer => {"TIMER"}
    case Service => {"SUPERVISOR", "LOGGER"}
    case Boot => {"MMU", "BOOT", "BOOT_INFO"}
    case Driver => {"DEVICE", "DEVICE_DENIED", "MMIO", "MMIO_DENIED", "DMA", "DMA_DENIED", "IRQ", "IRQ_DENIED", "IRQ_DROPPED",
                    "DRIVER", "DRIVER_MANAGER"}
    case Network => {"NET_DRIVER", "NET_SERVICE", "NET_TX", "NET_RX", "NET_DENIED"}
    case Loader => {"APP_IMAGE"}
  }

  /** The fault line whose first `type` field names the watchdog. */
  predicate WatchdogFault(kind: string, fs: seq<Field>) {
    kind == "FAULT" && exists i | 0 <= i < |fs| :: fs[i] == ("type", "WatchdogTimeout") && (forall j | 0 <= j < i :: fs[j].0 != "type")
  }

  lemma FaultCategory(fs: seq<Field>)
    ensures Categorize("FAULT", fs) == Some(if WatchdogFault("FAULT", fs) then Watchdog else Fault)
  {
    assert "FAULT"[0] == 'F';
    var i := Find(fs, "type");
    assert i < |fs| && fs[i].1 == "WatchdogTimeout" ==> fs[i] == ("type", "WatchdogTimeout");
  }

  lemma KnownKinds(kind: string, fs: seq<Field>)
    requires Categorize(kind, fs).Some? && kind != "FAULT"
    ensures kind in KindsOf(Categorize(kind, fs).value)
  {
    hide Find;
  }

  lemma UnknownKinds(kind: string, fs: seq<Field>, c: Category)
    requires Categorize(kind, fs).None?
    ensures kind !in KindsOf(c)
  {
    hide Find;
  }

  /** A line is given a category exactly if some category collects its kind, and then that one. */
  lemma CategoriesExactly(kind: string, fs: seq<Field>)
    ensures Categorize(kind, fs).None? <==> forall c: Category :: kind !in KindsOf(c)
    ensures WatchdogFault(kind, fs) ==> Categorize(kind, fs) == Some(Watchdog)
    ensures Categorize(kind, fs).Some? && !WatchdogFault(kind, fs) ==> kind in KindsOf(Categorize(kind, fs).value)
  {
    hide Categorize, KindsOf;
    FaultCategory(fs);
    FaultKnown();
    if Categorize(kind, fs).None? {
      forall c: Category
        ensures kind !in KindsOf(c)
      {
        UnknownKinds(kind, fs, c);
      }
    } else if kind != "FAULT" {
      KnownKinds(kind, fs);
    }
  }

  lemma FaultKnown()
    ensures "FAULT" in KindsOf(Fault)
  {
  }

  // ---- Whole logs -----------------------------------------------------------

  /** Start of the last line of a text. */
  function LineStart(s: string): (i: nat)
    ensures i <= |s| && '\n' !in s[i..] && (i > 0 ==> s[i - 1] == '\n')
  {
    if s == "" || s[|s| - 1] == '\n' then |s|
    else
      var i := LineStart(s[..|s| - 1]);
      assert s[i..] == s[..|s| - 1][i..] + [s[|s| - 1]];
      i
  }

  function StripCr(s: string): string { if s != "" && s[|s| - 1] == '\r' then s[..|s| - 1] else s }

  /** Lines without their terminators; a final terminator starts no line. */
  function Lines(s: string): seq<string>
    decreases |s|
  {
    if s == "" then []
    else if s[|s| - 1] == '\n' then
      var body := s[..|s| - 1];
      var i := LineStart(body);
      Lines(body[..i]) + [StripCr(body[i..])]
    else
      var i := LineStart(s);
      Lines(s[..i]) + [s[i..]]
  }

  function Collect(ls: seq<string>): ParsedLog {
    if ls == [] then ParsedLog([], 0)
    else
      var p, l := Collect(ls[..|ls| - 1]), ls[|ls| - 1];
      var e := Parse(l);
      if e.Some? then p.(events := p.events + [e.value.(number := |p.events| + 1)])
      else if Blank(l) then p
      else p.(skipped := p.skipped + 1)
  }

  function Blanks(ls: seq<string>): nat {
    if ls == [] then 0 else Blanks(ls[..|ls| - 1]) + (if Blank(ls[|ls| - 1]) then 1 else 0)
  }

  /** A blank line parses to nothing. */
  lemma {:induction false} TrimBlank(s: string)
    requires Blank(s)
    ensures TrimEnd(s) == ""
  {
    if s != "" {
      TrimBlank(s[..|s| - 1]);
    }
  }

  /** Every line is an event, skipped or blank, and events are numbered from one in order. */
  lemma {:induction false} CollectAccounts(ls: seq<string>)
    ensures |Collect(ls).events| + Collect(ls).skipped + Blanks(ls) == |ls|
    ensures forall i | 0 <= i < |Collect(ls).events| :: Collect(ls).events[i].number == i + 1
  {
    if ls != [] {
      var q, l := ls[..|ls| - 1], ls[|ls| - 1];
      CollectAccounts(q);
      if Blank(l) {
        TrimBlank(l);
        assert Parse(l).None?;
      }
    }
  }

  method ParseLog(text: string) returns (out: ParsedLog)
    ensures out == Collect(Lines(text))
  {
    hide Parse, Lines;
    var ls := Lines(text);
    out := ParsedLog([], 0);
    var i := 0;
    while i < |ls|
      invariant 0 <= i <= |ls|
      invariant out == Collect(ls[..i])
    {
      assert ls[..i + 1][..i] == ls[..i];
      var e := ParseLine(ls[i]);
      if e.Some? {
        out := out.(events := out.events + [e.value.(number := |out.events| + 1)]);
      } else if !Blank(ls[i]) {
        out := out.(skipped := out.skipped + 1);
      }
      i := i + 1;
    }
    assert ls[..i] == ls;
  }
}
