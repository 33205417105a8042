/** From monitor event to serial line and back: nothing lost, nothing confused. */
module MonitorRoundTrip {
  import opened Base
  import opened Fault
  import opened MonitorLine
  import opened EventLog

  // ---- Words of a line ------------------------------------------------------

  lemma {:induction false} WordStartIs(s: string, i: nat)
    requires i <= |s| && (forall k | i <= k < |s| :: !IsSpace(s[k])) && (i > 0 ==> IsSpace(s[i - 1]))
    ensures WordStart(s) == i
  {
    if i < |s| {
      WordStartIs(s[..|s| - 1], i);
    }
  }

  /** A space and a solid word add exactly that word. */
  lemma WordsSnoc(s: string, w: string)
    requires Solid(w)
    ensures Words(s + (" " + w)) == Words(s) + [w]
  {
    var t := s + (" " + w);
    assert IsSpace(' ');
    WordStartIs(t, |s| + 1);
    assert t[..|s| + 1] == s + " " && t[|s| + 1..] == w;
    assert (s + " ")[..|s|] == s;
    assert !IsSpace(t[|t| - 1]);
  }

  lemma WordsOne(w: string)
    requires Solid(w)
    ensures Words(w) == [w]
  {
    WordStartIs(w, 0);
    assert w[..0] == "" && w[0..] == w;
  }

  function Tokens(fs: seq<Field>): seq<string> {
    if fs == [] then [] else Tokens(fs[..|fs| - 1]) + [Token(fs[|fs| - 1])]
  }

  /** Fields that survive being written as words: solid values, and keys without `=`. */
  predicate Plain(f: Field) { Solid(f.0) && Solid(f.1) && '=' !in f.0 }
  predicate AllPlain(fs: seq<Field>) { forall i | 0 <= i < |fs| :: Plain(fs[i]) }

  lemma TokenIsSolid(f: Field)
    requires Plain(f)
    ensures Solid(Token(f))
  {
    assert !IsSpace('=');
    var t := Token(f);
    forall i | 0 <= i < |t|
      ensures !IsSpace(t[i])
    {
      if i < |f.0| {
        assert t[i] == f.0[i];
      } else if i > |f.0| {
        assert t[i] == f.1[i - |f.0| - 1];
      }
    }
  }

  lemma {:induction false} WordsOfLine(head: string, fs: seq<Field>)
    requires Solid(head) && AllPlain(fs)
    ensures Words(Line(head, fs)) == [head] + Tokens(fs)
    ensures Solid(Line(head, fs)[|Line(head, fs)| - 1..])
  {
    hide Words;
    if fs == [] {
      WordsOne(head);
    } else {
      var q, f := fs[..|fs| - 1], fs[|fs| - 1];
      WordsOfLine(head, q);
      TokenIsSolid(f);
      WordsSnoc(Line(head, q), Token(f));
      var t := Line(head, fs);
      assert t[|t| - 1] == Token(f)[|Token(f)| - 1];
    }
  }

  lemma {:induction false} FindEqIs(k: string, v: string)
    requires '=' !in k
    ensures FindEq(k + "=" + v) == |k|
  {
    var s := k + "=" + v;
    if k == "" {
      assert s[0] == '=';
    } else {
      assert s[0] == k[0] && k[0] in k;
      assert s[1..] == k[1..] + "=" + v;
      FindEqIs(k[1..], v);
    }
  }

  lemma TokenSplits(f: Field)
    requires Plain(f)
    ensures SplitOnce(Token(f)) == Some(f) && IsField(Token(f))
  {
    FindEqIs(f.0, f.1);
    var s := Token(f);
    assert s[..|f.0|] == f.0 && s[|f.0| + 1..] == f.1;
  }

  lemma ParseSnoc(ts: seq<string>, t: string)
    requires IsField(t)
    ensures FieldsIn(ts + [t]) == FieldsIn(ts) + [SplitOnce(t).value] && FlagsIn(ts + [t]) == FlagsIn(ts)
  {
    assert (ts + [t])[..|ts|] == ts;
  }

  lemma {:induction false} TokensParse(fs: seq<Field>)
    requires AllPlain(fs)
    ensures FieldsIn(Tokens(fs)) == fs && FlagsIn(Tokens(fs)) == []
  {
    hide SplitOnce, IsField, Token;
    if fs != [] {
      var q, f := fs[..|fs| - 1], fs[|fs| - 1];
      assert Plain(f);
      TokensParse(q);
      TokenSplits(f);
      ParseSnoc(Tokens(q), Token(f));
      hide Plain, FieldsIn, FlagsIn;
      assert fs == q + [f];
    }
  }

  // ---- Event fields are plain -----------------------------------------------

  predicate NameChar(c: char) { 'A' <= c <= 'Z' || 'a' <= c <= 'z' || '0' <= c <= '9' || c == '_' }
  predicate NameLike(s: string) { s != "" && forall i | 0 <= i < |s| :: NameChar(s[i]) }

  lemma NameLikeIsSolid(s: string)
    requires NameLike(s)
    ensures Solid(s) && '=' !in s && '\n' !in s && '\r' !in s
  {
  }

  lemma TypeNameLike(t: EventType)
    ensures NameLike(TypeName(t))
  {
    TaskNameLike(t);
    if t !in {TaskStarted, TaskExited, TaskFaulted, CapDenied} {
      OtherNameLike(t);
    }
    hide NameLike, TypeName;
  }

  lemma TaskNameLike(t: EventType)
    ensures t in {TaskStarted, TaskExited, TaskFaulted, CapDenied} ==> NameLike(TypeName(t))
  {
  }

  lemma OtherNameLike(t: EventType)
    requires t !in {TaskStarted, TaskExited, TaskFaulted, CapDenied}
    ensures NameLike(TypeName(t))
  {
  }

  lemma SeverityNameLike(s: Severity)
    ensures NameLike(SeverityName(s))
  {
  }

  lemma PhaseNameLike(p: Phase)
    ensures NameLike(PhaseName(p))
  {
  }

  lemma PolicyNameLike(d: Decision)
    ensures NameLike(PolicyName(d))
  {
  }

  lemma KeysLike()
    ensures NameLike("type") && NameLike("ts") && NameLike("task") && NameLike("sev") && NameLike("phase")
    ensures NameLike("policy") && NameLike("cap") && NameLike("syscall") && NameLike("EVT")
  {
  }

  lemma {:induction false} DecLike(n: nat)
    ensures NameLike(Dec(n))
  {
    if n >= 10 {
      DecLike(n / 10);
    }
  }

  predicate NameField(f: Field) { NameLike(f.0) && NameLike(f.1) }

  lemma FieldsAreNames(e: MonitorEvent)
    ensures forall i | 0 <= i < |Fields(e)| :: NameField(Fields(e)[i])
    ensures NameField(("type", TypeName(e.kind)))
  {
    KeysLike();
    TypeNameLike(e.kind);
    SeverityNameLike(e.severity);
    PhaseNameLike(e.phase);
    if e.policy.Some? {
      PolicyNameLike(e.policy.value);
    }
    DecLike(e.timestamp);
    DecLike(e.task);
    if e.cap.Some? {
      DecLike(e.cap.value);
    }
    if e.syscall.Some? {
      DecLike(e.syscall.value);
    }
    hide NameLike, Dec, TypeName, SeverityName, PhaseName, PolicyName;
    assert forall i | 0 <= i < 4 :: NameField(CoreFields(e)[i]);
    assert forall i | 0 <= i < |PolicyField(e)| :: NameField(PolicyField(e)[i]);
    assert forall i | 0 <= i < |CapField(e)| :: NameField(CapField(e)[i]);
    assert forall i | 0 <= i < |SyscallField(e)| :: NameField(SyscallField(e)[i]);
  }

  function Written(e: MonitorEvent): seq<Field> { [("type", TypeName(e.kind))] + Fields(e) }

  lemma WrittenArePlain(e: MonitorEvent)
    ensures AllPlain(Written(e))
  {
    hide Fields, TypeName;
    FieldsAreNames(e);
    forall i | 0 <= i < |Written(e)|
      ensures Plain(Written(e)[i])
    {
      var f := Written(e)[i];
      assert i > 0 ==> f == Fields(e)[i - 1];
      assert NameField(f);
      NameLikeIsSolid(f.0);
      NameLikeIsSolid(f.1);
    }
  }

  // ---- The round trip -------------------------------------------------------

  function CategoryOf(t: EventType): Category {
    match t
    case TaskStarted => Category.Task
    case TaskExited => Category.Task
    case TaskFaulted => Category.Task
    case CapDenied => Category.Capability
    case IpcDenied => Category.Ipc
    case PageFaulted => Category.Fault
    case DeadlineMissed => Category.Fault
    case WatchdogExpired => Category.Watchdog
    case RecoveryApplied => Category.Recovery
  }

  lemma TypeIsCategorized(t: EventType, fs: seq<Field>)
    ensures Categorize(TypeName(t), fs) == Some(CategoryOf(t))
  {
  }

  /** What the host tool should recover from an event's line. */
  function Recovered(e: MonitorEvent): Event {
    Event(0, CategoryOf(e.kind), TypeName(e.kind), [], Fields(e), Text(e))
  }

  lemma TrimKeeps(s: string)
    requires s != "" && !IsSpace(s[|s| - 1])
    ensures TrimEnd(s) == s && !Blank(s)
  {
  }

  lemma {:induction false} LinePrefix(head: string, fs: seq<Field>)
    ensures head <= Line(head, fs)
  {
    if fs != [] {
      LinePrefix(head, fs[..|fs| - 1]);
    }
  }

  lemma EvtHead(ts: seq<string>)
    ensures Head(["EVT"] + ts) == Some(("EVT", ts))
  {
    assert FindEq("EVT"[3..]) == 0;
    assert FindEq("EVT"[2..]) == 1;
    assert FindEq("EVT"[1..]) == 2;
    assert (["EVT"] + ts)[1..] == ts;
  }

  lemma TypeFirst(e: MonitorEvent)
    ensures Effective("EVT", Written(e)) == Some((TypeName(e.kind), Fields(e)))
  {
    hide Fields, TypeName;
    var w := Written(e);
    FoundIs(w, "type", 0);
    assert w[0] == ("type", TypeName(e.kind));
    assert w[..0] + w[0 + 1..] == Fields(e);
  }

  /** Parsing an event's line gives back its kind and exactly its fields, with no flags. */
  lemma LineRoundTrip(e: MonitorEvent)
    ensures Parse(Text(e)) == Some(Recovered(e))
  {
    hide Fields, TypeName, Words, Line, Tokens, FieldsIn, FlagsIn, TrimEnd, Blank, Categorize, CategoryOf, Head, Effective;
    var t := Text(e);
    assert t == Line("EVT", Written(e));
    EvtIsSolid();
    WrittenArePlain(e);
    WordsOfLine("EVT", Written(e));
    LinePrefix("EVT", Written(e));
    assert t[0] == 'E' && BANNER[0] == 'A';
    assert !IsSpace(t[|t| - 1..][0]);
    TrimKeeps(t);
    EvtHead(Tokens(Written(e)));
    TokensParse(Written(e));
    TypeFirst(e);
    TypeIsCategorized(e.kind, Fields(e));
  }

  /** The boot banner, whatever white space follows it, is a boot event of its own. */
  lemma BannerIsBoot(space: string)
    requires Blank(space)
    ensures var banner := "AxiomRT kernel booted"; Parse(banner + space) == Some(Event(0, Category.Boot, "BOOT", [], [], banner))
  {
    hide Words, TrimEnd, FlagsIn, FieldsIn, Head, Classified;
    var banner := "AxiomRT kernel booted";
    assert banner[20] == 'd';
    TrimKeeps(banner);
    TrimSpace(banner, space);
  }

  lemma {:induction false} TrimSpace(s: string, space: string)
    requires Blank(space)
    ensures TrimEnd(s + space) == TrimEnd(s)
    decreases |space|
  {
    if space == "" {
      assert s + space == s;
    } else {
      var w := s + space;
      assert w[..|w| - 1] == s + space[..|space| - 1];
      TrimSpace(s, space[..|space| - 1]);
    }
  }

  lemma EvtIsSolid()
    ensures Solid("EVT")
  {
    KeysLike();
    NameLikeIsSolid("EVT");
  }

  // ---- Whole logs -----------------------------------------------------------

  /** The serial output of exporting events in turn. */
  function Export(es: seq<MonitorEvent>): string {
    if es == [] then "" else Export(es[..|es| - 1]) + (Text(es[|es| - 1]) + "\n")
  }

  predicate OneLine(s: string) { forall i | 0 <= i < |s| :: s[i] != '\n' && s[i] != '\r' }

  lemma {:induction false} LineStartIs(s: string, i: nat)
    requires i <= |s| && (forall k | i <= k < |s| :: s[k] != '\n') && (i > 0 ==> s[i - 1] == '\n')
    ensures LineStart(s) == i
  {
    if i < |s| {
      LineStartIs(s[..|s| - 1], i);
    }
  }

  /** A line is what stands before its end, which is a newline, a return and a newline, or the end of the text. */
  lemma LinesSnoc(s: string, t: string)
    requires (s == "" || s[|s| - 1] == '\n') && OneLine(t)
    ensures Lines(s + (t + "\n")) == Lines(s) + [t]
    ensures Lines(s + (t + "\r\n")) == Lines(s) + [t]
    ensures t != "" ==> Lines(s + t) == Lines(s) + [t]
  {
    hide Lines, LineStart, StripCr;
    LineEnds(s, t);
    LineEnds(s, t + "\r");
    assert (t + "\r") + "\n" == t + "\r\n";
    NoCr(t);
  }

  lemma LineEnds(s: string, t: string)
    requires (s == "" || s[|s| - 1] == '\n') && '\n' !in t
    ensures Lines(s + (t + "\n")) == Lines(s) + [StripCr(t)]
    ensures t != "" ==> Lines(s + t) == Lines(s) + [t]
  {
    hide Lines, LineStart, StripCr;
    var body := s + t;
    assert s + (t + "\n") == body + "\n";
    LastLine(s, t);
    LinesUnfold(s + (t + "\n"), body, |s|);
    if t != "" {
      LinesOpen(body, |s|);
    }
  }

  lemma LinesOpen(w: string, i: nat)
    requires w != "" && w[|w| - 1] != '\n' && i == LineStart(w)
    ensures Lines(w) == Lines(w[..i]) + [w[i..]]
  {
    hide LineStart;
  }

  lemma LastLine(s: string, t: string)
    requires (s == "" || s[|s| - 1] == '\n') && '\n' !in t
    ensures LineStart(s + t) == |s| && (s + t)[..|s|] == s && (s + t)[|s|..] == t
  {
    hide LineStart;
    var body := s + t;
    assert forall k | |s| <= k < |body| :: body[k] == t[k - |s|];
    LineStartIs(body, |s|);
  }

  lemma NoCr(t: string)
    requires OneLine(t)
    ensures StripCr(t) == t && StripCr(t + "\r") == t
  {
  }

  lemma LinesUnfold(w: string, body: string, i: nat)
    requires w == body + "\n" && i == LineStart(body)
    ensures Lines(w) == Lines(body[..i]) + [StripCr(body[i..])]
  {
    assert w[..|w| - 1] == body && w[|w| - 1] == '\n';
    hide LineStart;
  }

  lemma {:induction false} LineIsOneLine(head: string, fs: seq<Field>)
    requires NameLike(head) && forall i | 0 <= i < |fs| :: NameField(fs[i])
    ensures OneLine(Line(head, fs))
  {
    if fs != [] {
      var q, f := fs[..|fs| - 1], fs[|fs| - 1];
      LineIsOneLine(head, q);
      assert NameField(fs[|fs| - 1]);
    }
  }

  function Texts(es: seq<MonitorEvent>): seq<string> {
    if es == [] then [] else Texts(es[..|es| - 1]) + [Text(es[|es| - 1])]
  }

  lemma TextIsOneLine(e: MonitorEvent)
    ensures OneLine(Text(e))
  {
    hide Fields, TypeName, Line, NameLike;
    FieldsAreNames(e);
    KeysLike();
    LineIsOneLine("EVT", Written(e));
  }

  lemma {:induction false} LinesOfExport(es: seq<MonitorEvent>)
    ensures Lines(Export(es)) == Texts(es)
    ensures Export(es) == "" || Export(es)[|Export(es)| - 1] == '\n'
  {
    hide Text, Lines;
    if es == [] {
      NoLines();
    } else {
      var q, e := es[..|es| - 1], es[|es| - 1];
      LinesOfExport(q);
      TextIsOneLine(e);
      LinesSnoc(Export(q), Text(e));
    }
  }

  lemma NoLines()
    ensures Lines("") == []
  {
  }

  function Numbered(es: seq<MonitorEvent>): seq<Event> {
    if es == [] then [] else Numbered(es[..|es| - 1]) + [Recovered(es[|es| - 1]).(number := |es|)]
  }

  lemma {:induction false} NumberedLength(es: seq<MonitorEvent>)
    ensures |Numbered(es)| == |es| == |Texts(es)|
  {
    if es != [] {
      NumberedLength(es[..|es| - 1]);
    }
  }

  /** A log of exported events parses to exactly those events, numbered in order, with nothing skipped. */
  lemma {:induction false} LogRoundTrip(es: seq<MonitorEvent>)
    ensures Collect(Lines(Export(es))) == ParsedLog(Numbered(es), 0)
  {
    hide Text, Lines, Parse, Recovered;
    LinesOfExport(es);
    if es != [] {
      var q, e := es[..|es| - 1], es[|es| - 1];
      LogRoundTrip(q);
      LinesOfExport(q);
      LineRoundTrip(e);
      NumberedLength(q);
      assert Texts(es)[..|Texts(es)| - 1] == Texts(q);
    }
  }
}
