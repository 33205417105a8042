/**
 AXAPP1 image records: the positional record the loader validates byte by byte,
 against its grammar, and the kernel's rule for admitting an image mapping.
 */
module ImageRecord {
  import opened Base

  const SPACE: byte := 32
  const BAD_NUM: nat := 0xFFFF_FFFF_FFFF_FFFF
  const BAD_HEX: nat := 0xFFFF_FFFF

  function Magic(): seq<byte> { [65, 88, 65, 80, 80, 49, 32] }  // "AXAPP1 "
  function Console(): seq<byte> { [99, 111, 110, 115, 111, 108, 101] }  // "console"
  function NoCaps(): seq<byte> { [110, 111, 110, 101] }  // "none"
  function Hello(): seq<byte> { [104, 101, 108, 108, 111] }  // "hello"
  function Counter(): seq<byte> { [99, 111, 117, 110, 116, 101, 114] }  // "counter"
  function FaultDemo(): seq<byte> { [102, 97, 117, 108, 116, 95, 100, 101, 109, 111] }  // "fault_demo"

  // ---- The grammar ----------------------------------------------------------

  predicate IsDigit(b: byte) { 48 <= b <= 57 }
  predicate IsHex(b: byte) { 48 <= b <= 57 || 97 <= b <= 102 }

  predicate Number(s: seq<byte>) { s != [] && forall i | 0 <= i < |s| :: IsDigit(s[i]) }
  predicate Token(s: seq<byte>) { s != [] && forall i | 0 <= i < |s| :: s[i] != SPACE }
  predicate HexWord(s: seq<byte>) { |s| == 4 && forall i | 0 <= i < |s| :: IsHex(s[i]) }

  /** The number a decimal string writes, unbounded. */
  function Decimal(s: seq<byte>): nat {
    if s == [] then 0 else Decimal(s[..|s| - 1]) * 10 + DigitOf(s[|s| - 1])
  }

  function DigitOf(b: byte): nat { if b >= 48 then b - 48 else 0 }

  function HexDigit(b: byte): nat { if b <= 57 then DigitOf(b) else if b >= 87 then b - 87 else 0 }

  function Hex(s: seq<byte>): nat {
    if s == [] then 0 else Hex(s[..|s| - 1]) * 16 + HexDigit(s[|s| - 1])
  }

  /** The characters `0` to `9` and `a` to `f` stand for their values. */
  lemma DigitValues(v: nat)
    requires v < 16
    ensures v < 10 ==> DigitOf(48 + v) == v
    ensures HexDigit(if v < 10 then 48 + v else 97 + (v - 10)) == v
  {
  }

  function ByteSum(s: seq<byte>): nat {
    if s == [] then 0 else ByteSum(s[..|s| - 1]) + s[|s| - 1]
  }

  /** The fields after the name, as written. */
  datatype Fields = Fields(entry: seq<byte>, text: seq<byte>, rodata: seq<byte>, stack: seq<byte>,
                           caps: seq<byte>, size: seq<byte>, check: seq<byte>)

  predicate Lexed(f: Fields) {
    Number(f.entry) && Number(f.text) && Number(f.rodata) && Number(f.stack) && Token(f.caps) && Number(f.size)
    && HexWord(f.check)
  }

  function Spaced(s: seq<byte>): seq<byte> { [SPACE] + s }

  /** Fields in the order they are written. */
  datatype Words = End | Word(s: seq<byte>, rest: Words)

  function Listed(f: Fields): Words {
    Word(f.entry, Word(f.text, Word(f.rodata, Word(f.stack, Word(f.caps, Word(f.size, Word(f.check, End)))))))
  }

  function Joined(ws: Words): seq<byte> {
    match ws
    case End => []
    case Word(s, rest) => Spaced(s) + Joined(rest)
  }

  /** The record a name and its fields make. */
  function Written(name: seq<byte>, f: Fields): seq<byte> { Magic() + (name + Joined(Listed(f))) }

  /** Numbers as the loader sees them: 64-bit words. */
  function Num(s: seq<byte>): nat { Decimal(s) % TWO64 }

  predicate LayoutOk(e: nat, t: nat, rd: nat, s: nat, z: nat) {
    0 < t <= 65536 && rd <= 65536 && z == t + rd && z <= 131072 && e < t && s == 1
  }

  predicate PolicyOk(name: seq<byte>, caps: seq<byte>) {
    && (caps == Console() || caps == NoCaps())
    && ((name == Hello() || name == Counter()) || (name == FaultDemo() && caps == NoCaps()))
  }

  /** What it means for `f` to be the fields of an acceptable record for `name`. */
  predicate Acceptable(rec: seq<byte>, name: seq<byte>, f: Fields) {
    && Lexed(f) && Token(name) && rec == Written(name, f)
    && ByteSum(rec[..|rec| - 5]) % TWO16 == Hex(f.check)
    && LayoutOk(Num(f.entry), Num(f.text), Num(f.rodata), Num(f.stack), Num(f.size))
    && PolicyOk(name, f.caps)
  }

  // ---- What the scanning loops compute --------------------------------------

  /** First space at or after `i`, or the end. */
  function TokEnd(p: seq<byte>, i: nat): (j: nat)
    requires i <= |p|
    ensures i <= j <= |p|
    ensures forall k | i <= k < j :: p[k] != SPACE
    ensures j < |p| ==> p[j] == SPACE
    decreases |p| - i
  {
    if i == |p| || p[i] == SPACE then i else TokEnd(p, i + 1)
  }

  /** First non-digit at or after `i`, or the end. */
  function DigitsEnd(p: seq<byte>, i: nat): (j: nat)
    requires i <= |p|
    ensures i <= j <= |p|
    ensures forall k | i <= k < j :: IsDigit(p[k])
    ensures j < |p| ==> !IsDigit(p[j])
    decreases |p| - i
  {
    if i == |p| || !IsDigit(p[i]) then i else DigitsEnd(p, i + 1)
  }

  /** Decimal digits from `i` on: their value as a 64-bit word and where they end. */
  function DecStop(p: seq<byte>, i: nat): (r: (nat, nat))
    requires i <= |p|
    ensures r.1 <= |p|
  {
    var j := DigitsEnd(p, i);
    (if j == i then BAD_NUM else Num(p[i..j]), j)
  }

  /** A space at `j` followed by a number. */
  function NumAfter(p: seq<byte>, j: nat): (r: (nat, nat))
    requires j <= |p|
    ensures r.1 <= |p|
  {
    if j == |p| || p[j] != SPACE then (BAD_NUM, j) else DecStop(p, j + 1)
  }

  function Hex4(p: seq<byte>, i: nat): nat
    requires i + 4 <= |p|
  {
    if HexWord(p[i..i + 4]) then Hex(p[i..i + 4]) else BAD_HEX
  }

  /** The field boundaries the positional parse finds after the name ends at `i1`. */
  datatype Parse = Parse(e: nat, t: nat, rd: nat, s: nat, j4: nat)

  function FourNumbers(p: seq<byte>, i1: nat): (r: Parse)
    requires i1 <= |p|
    ensures r.j4 <= |p|
  {
    var a := NumAfter(p, i1);
    var b := NumAfter(p, a.1);
    var c := NumAfter(p, b.1);
    var d := NumAfter(p, c.1);
    Parse(a.0, b.0, c.0, d.0, d.1)
  }

  /** The validator's verdict on the fields of a record whose tail and checksum are fine. */
  function FieldVerdict(p: seq<byte>, name: seq<byte>): nat
    requires |p| >= 13
  {
    var i1 := TokEnd(p, 7);
    if i1 == 7 then 4
    else if p[7..i1] != name then 1
    else
      var n := FourNumbers(p, i1);
      if n.e == BAD_NUM || n.t == BAD_NUM || n.rd == BAD_NUM || n.s == BAD_NUM then 4
      else if n.j4 == |p| || p[n.j4] != SPACE then 4
      else
        var c1 := TokEnd(p, n.j4 + 1);
        var z := NumAfter(p, c1);
        var caps := p[n.j4 + 1..c1];
        if caps == [] then 4
        else if z.0 == BAD_NUM || z.1 != |p| - 5 then 4
        else if !LayoutOk(n.e, n.t, n.rd, n.s, z.0) then 1
        else if caps != Console() && caps != NoCaps() then 3
        else if (name == Hello() || name == Counter()) then 0
        else if name == FaultDemo() then (if caps == Console() then 3 else 0)
        else 5
  }

  /**
   The reply code: 0 accepts; 1 is for a wrong start, name or layout, 2 for a wrong sum,
   3 for capabilities the policy refuses, 4 for a broken field, 5 for a name no policy knows.
   */
  function Verdict(p: seq<byte>, name: seq<byte>): nat {
    if |p| < 13 then 4
    else if p[..7] != Magic() then 1
    else if p[|p| - 5] != SPACE then 4
    else if Hex4(p, |p| - 4) == BAD_HEX then 4
    else if ByteSum(p[..|p| - 5]) % TWO16 != Hex4(p, |p| - 4) then 2
    else FieldVerdict(p, name)
  }

  // ---- Soundness and completeness -------------------------------------------

  /** Where digits stop is decided by what follows them. */
  lemma DigitsStop(p: seq<byte>, i: nat, j: nat)
    requires i <= j <= |p| && (forall k | i <= k < j :: IsDigit(p[k])) && (j < |p| ==> !IsDigit(p[j]))
    ensures DigitsEnd(p, i) == j
  {
  }

  lemma TokenStop(p: seq<byte>, i: nat, j: nat)
    requires i <= j <= |p| && (forall k | i <= k < j :: p[k] != SPACE) && (j < |p| ==> p[j] == SPACE)
    ensures TokEnd(p, i) == j
  {
  }

  /** A space and then `s`, from `a` up to `b`. */
  predicate FieldAt(p: seq<byte>, a: nat, b: nat, s: seq<byte>) {
    a < b <= |p| && p[a] == SPACE && p[a + 1..b] == s
  }

  /** From `a` on, `p` is `t`. */
  predicate EndsWith(p: seq<byte>, a: nat, t: seq<byte>) { a <= |p| && p[a..] == t }

  /** A number that parses is a space and a maximal digit string, and conversely. */
  lemma NumAfterSound(p: seq<byte>, j: nat)
    requires j <= |p| && NumAfter(p, j).0 != BAD_NUM
    ensures var b := NumAfter(p, j).1;
            && j < b && FieldAt(p, j, b, p[j + 1..b]) && Number(p[j + 1..b])
            && NumAfter(p, j).0 == Num(p[j + 1..b])
  {
  }

  lemma NumAfterComplete(p: seq<byte>, a: nat, b: nat, s: seq<byte>, b2: nat, s2: seq<byte>)
    requires Number(s) && FieldAt(p, a, b, s) && FieldAt(p, b, b2, s2)
    ensures a <= |p| && NumAfter(p, a) == (Num(s), b)
  {
    forall k | a + 1 <= k < b
      ensures IsDigit(p[k])
    {
      assert p[k] == p[a + 1..b][k - a - 1];
    }
    DigitsStop(p, a + 1, b);
  }

  lemma TokenAt(p: seq<byte>, a: nat, b: nat, s: seq<byte>, b2: nat, s2: seq<byte>)
    requires a <= b <= |p| && p[a..b] == s && Token(s) && FieldAt(p, b, b2, s2)
    ensures TokEnd(p, a) == b
  {
    forall k | a <= k < b
      ensures p[k] != SPACE
    {
      assert p[k] == p[a..b][k - a];
    }
    TokenStop(p, a, b);
  }

  lemma NameAt(p: seq<byte>, i1: nat, name: seq<byte>, b2: nat, s2: seq<byte>)
    requires Headed(p, name, i1) && Token(name) && FieldAt(p, i1, b2, s2)
    ensures TokEnd(p, 7) == i1
  {
    TokenAt(p, 7, i1, name, b2, s2);
  }

  lemma CapsAt(p: seq<byte>, a: nat, b: nat, s: seq<byte>, b2: nat, s2: seq<byte>)
    requires FieldAt(p, a, b, s) && Token(s) && FieldAt(p, b, b2, s2)
    ensures a < b <= |p| && TokEnd(p, a + 1) == b
  {
    TokenAt(p, a + 1, b, s, b2, s2);
  }

  lemma TokenIs(p: seq<byte>, a: nat, b: nat)
    requires a < b <= |p| && TokEnd(p, a) == b
    ensures Token(p[a..b])
  {
  }

  /** A suffix extended by the field before it, and a field taken off a suffix. */
  lemma Prepend(p: seq<byte>, a: nat, b: nat, s: seq<byte>, t: seq<byte>)
    requires FieldAt(p, a, b, s) && EndsWith(p, b, t)
    ensures EndsWith(p, a, Spaced(s) + t)
  {
    assert p[a..] == [p[a]] + p[a + 1..b] + p[b..];
  }

  lemma TakeField(p: seq<byte>, a: nat, s: seq<byte>, t: seq<byte>)
    requires EndsWith(p, a, Spaced(s) + t)
    ensures FieldAt(p, a, a + 1 + |s|, s) && EndsWith(p, a + 1 + |s|, t)
  {
    var q := p[a..];
    assert p[a] == q[0];
    assert p[a + 1..a + 1 + |s|] == q[1..1 + |s|];
    assert p[a + 1 + |s|..] == q[1 + |s|..];
  }

  /** From `a` to the end, `p` is the words one after another. */
  predicate Chain(p: seq<byte>, a: nat, ws: Words)
    decreases ws
  {
    match ws
    case End => a == |p|
    case Word(s, rest) => FieldAt(p, a, a + 1 + |s|, s) && Chain(p, a + 1 + |s|, rest)
  }

  lemma {:induction false} ChainIsJoined(p: seq<byte>, a: nat, ws: Words)
    ensures Chain(p, a, ws) <==> EndsWith(p, a, Joined(ws))
    decreases ws
  {
    match ws
    case End =>
    case Word(s, rest) =>
      ChainIsJoined(p, a + 1 + |s|, rest);
      if Chain(p, a, ws) {
        Prepend(p, a, a + 1 + |s|, s, Joined(rest));
      }
      if EndsWith(p, a, Joined(ws)) {
        TakeField(p, a, s, Joined(rest));
      }
  }

  /** The boundaries of a record; each field lies between two of them. */
  datatype Cuts = Cuts(i1: nat, j1: nat, j2: nat, j3: nat, j4: nat, c1: nat, j5: nat)

  /** `c` cuts `p`, after the name, into the fields `f`, one space apart. */
  predicate CutBy(p: seq<byte>, f: Fields, c: Cuts) {
    && FieldAt(p, c.i1, c.j1, f.entry) && FieldAt(p, c.j1, c.j2, f.text) && FieldAt(p, c.j2, c.j3, f.rodata)
    && FieldAt(p, c.j3, c.j4, f.stack) && FieldAt(p, c.j4, c.c1, f.caps) && FieldAt(p, c.c1, c.j5, f.size)
    && FieldAt(p, c.j5, |p|, f.check)
  }

  /** The record starts with the magic and the name, which ends at `i1`. */
  predicate Headed(p: seq<byte>, name: seq<byte>, i1: nat) {
    7 <= i1 <= |p| && p[..7] == Magic() && p[7..i1] == name
  }

  lemma FieldBytes(p: seq<byte>, a: nat, b: nat, s: seq<byte>)
    requires FieldAt(p, a, b, s)
    ensures b == a + 1 + |s| <= |p| && p[a] == SPACE && p[a + 1..b] == s
  {
  }

  lemma CutOrder(p: seq<byte>, f: Fields, c: Cuts)
    requires CutBy(p, f, c)
    ensures c.i1 < c.j1 < c.j2 < c.j3 < c.j4 < c.c1 < c.j5 < |p|
  {
  }

  lemma CutsAreChain(p: seq<byte>, f: Fields, c: Cuts)
    requires CutBy(p, f, c)
    ensures Chain(p, c.i1, Listed(f))
  {
    hide FieldAt;
    FieldBytes(p, c.i1, c.j1, f.entry);
    FieldBytes(p, c.j1, c.j2, f.text);
    FieldBytes(p, c.j2, c.j3, f.rodata);
    FieldBytes(p, c.j3, c.j4, f.stack);
    FieldBytes(p, c.j4, c.c1, f.caps);
    FieldBytes(p, c.c1, c.j5, f.size);
    FieldBytes(p, c.j5, |p|, f.check);
    var w := Word(f.check, End);
    assert Chain(p, c.j5, w);
    w := Word(f.size, w);
    assert Chain(p, c.c1, w);
    w := Word(f.caps, w);
    assert Chain(p, c.j4, w);
    w := Word(f.stack, w);
    assert Chain(p, c.j3, w);
    w := Word(f.rodata, w);
    assert Chain(p, c.j2, w);
  }

  lemma ChainHasCuts(p: seq<byte>, i1: nat, f: Fields) returns (c: Cuts)
    requires Chain(p, i1, Listed(f))
    ensures c.i1 == i1 && CutBy(p, f, c)
  {
    hide FieldAt;
    var w2 := Listed(f).rest;
    var j1 := i1 + 1 + |f.entry|;
    assert Chain(p, j1, w2);
    var j2 := j1 + 1 + |f.text|;
    assert Chain(p, j2, w2.rest);
    var j3 := j2 + 1 + |f.rodata|;
    assert Chain(p, j3, w2.rest.rest);
    var j4 := j3 + 1 + |f.stack|;
    assert Chain(p, j4, w2.rest.rest.rest);
    var c1 := j4 + 1 + |f.caps|;
    assert Chain(p, c1, Word(f.size, Word(f.check, End)));
    var j5 := c1 + 1 + |f.size|;
    assert Chain(p, j5, Word(f.check, End));
    assert Chain(p, j5 + 1 + |f.check|, End);
    c := Cuts(i1, j1, j2, j3, j4, c1, j5);
  }

  lemma Reassembled(p: seq<byte>, name: seq<byte>, f: Fields, c: Cuts)
    requires Headed(p, name, c.i1) && CutBy(p, f, c)
    ensures p == Written(name, f)
  {
    hide FieldAt, CutBy, Listed, Joined, Chain;
    CutsAreChain(p, f, c);
    ChainIsJoined(p, c.i1, Listed(f));
    assert p == p[..7] + (p[7..c.i1] + p[c.i1..]);
  }

  /** Where each field of a written record sits. */
  lemma CutsOfWritten(p: seq<byte>, name: seq<byte>, f: Fields) returns (c: Cuts)
    requires p == Written(name, f)
    ensures Headed(p, name, c.i1) && CutBy(p, f, c)
  {
    hide FieldAt, CutBy, Listed, Joined, Chain;
    ChainIsJoined(p, 7 + |name|, Listed(f));
    c := ChainHasCuts(p, 7 + |name|, f);
  }

  predicate WellLaidOut(f: Fields) {
    LayoutOk(Num(f.entry), Num(f.text), Num(f.rodata), Num(f.stack), Num(f.size))
  }

  /** Some number of the record is the parser's own failure mark, 2^64 - 1 modulo 2^64. */
  predicate Marked(f: Fields) {
    Num(f.entry) == BAD_NUM || Num(f.text) == BAD_NUM || Num(f.rodata) == BAD_NUM || Num(f.stack) == BAD_NUM
    || Num(f.size) == BAD_NUM
  }

  /** The code owed to a record of the grammar whose sum is right, by its fields and its name. */
  function CodeOwed(name: seq<byte>, f: Fields): nat {
    if Marked(f) then 4
    else if !WellLaidOut(f) then 1
    else if f.caps != Console() && f.caps != NoCaps() then 3
    else if name == Hello() || name == Counter() then 0
    else if name != FaultDemo() then 5
    else if f.caps == NoCaps() then 0 else 3
  }

  /** What a run that found no broken field found. */
  lemma FieldsFound(p: seq<byte>, name: seq<byte>) returns (f: Fields, c: Cuts)
    requires |p| >= 13 && TokEnd(p, 7) > 7 && p[7..TokEnd(p, 7)] == name && FieldVerdict(p, name) != 4
    requires p[..7] == Magic() && p[|p| - 5] == SPACE && HexWord(p[|p| - 4..])
    ensures Headed(p, name, c.i1) && CutBy(p, f, c) && Lexed(f) && Token(name)
    ensures f.check == p[|p| - 4..]
  {
    hide Num, Magic, LayoutOk, NumAfter, TokEnd, Console, NoCaps, Hello, Counter, FaultDemo, Number, HexWord, Token, FieldAt;
    var i1 := TokEnd(p, 7);
    NumAfterSound(p, i1);
    var j1 := NumAfter(p, i1).1;
    NumAfterSound(p, j1);
    var j2 := NumAfter(p, j1).1;
    NumAfterSound(p, j2);
    var j3 := NumAfter(p, j2).1;
    NumAfterSound(p, j3);
    var j4 := NumAfter(p, j3).1;
    var c1 := TokEnd(p, j4 + 1);
    NumAfterSound(p, c1);
    TokenIs(p, 7, i1);
    TokenIs(p, j4 + 1, c1);
    c := Cuts(i1, j1, j2, j3, j4, c1, |p| - 5);
    f := Fields(p[i1 + 1..j1], p[j1 + 1..j2], p[j2 + 1..j3], p[j3 + 1..j4], p[j4 + 1..c1], p[c1 + 1..|p| - 5],
                p[|p| - 4..]);
    SliceField(p, j4, c1);
    SliceField(p, |p| - 5, |p|);
    assert p[|p| - 5 + 1..|p|] == f.check;
  }

  lemma SliceField(p: seq<byte>, a: nat, b: nat)
    requires a < b <= |p| && p[a] == SPACE
    ensures FieldAt(p, a, b, p[a + 1..b])
  {
  }

  /** What the parser reads off a record so cut. */
  lemma CutReads(p: seq<byte>, name: seq<byte>, f: Fields, c: Cuts)
    requires Headed(p, name, c.i1) && CutBy(p, f, c) && Lexed(f) && Token(name)
    ensures c.i1 <= |p| && c.j1 <= |p| && c.j2 <= |p| && c.j3 <= |p| && c.j4 < c.c1 <= |p|
    ensures TokEnd(p, 7) == c.i1 && TokEnd(p, c.j4 + 1) == c.c1
    ensures NumAfter(p, c.i1) == (Num(f.entry), c.j1) && NumAfter(p, c.j1) == (Num(f.text), c.j2)
    ensures NumAfter(p, c.j2) == (Num(f.rodata), c.j3) && NumAfter(p, c.j3) == (Num(f.stack), c.j4)
    ensures NumAfter(p, c.c1) == (Num(f.size), c.j5)
  {
    hide Num, NumAfter, Number, Token, HexWord, TokEnd, FieldAt;
    NameAt(p, c.i1, name, c.j1, f.entry);
    hide Headed;
    CapsAt(p, c.j4, c.c1, f.caps, c.j5, f.size);
    NumAfterComplete(p, c.i1, c.j1, f.entry, c.j2, f.text);
    NumAfterComplete(p, c.j1, c.j2, f.text, c.j3, f.rodata);
    NumAfterComplete(p, c.j2, c.j3, f.rodata, c.j4, f.stack);
    NumAfterComplete(p, c.j3, c.j4, f.stack, c.c1, f.caps);
    NumAfterComplete(p, c.c1, c.j5, f.size, |p|, f.check);
  }

  lemma Sizes(name: seq<byte>, f: Fields)
    requires Lexed(f) && Token(name)
    ensures |name| > 0 && |f.caps| > 0 && |f.check| == 4 && Console() != NoCaps()
  {
    assert |Console()| != |NoCaps()|;
  }

  lemma CutVerdict(p: seq<byte>, name: seq<byte>, f: Fields, c: Cuts)
    requires Headed(p, name, c.i1) && CutBy(p, f, c) && Lexed(f) && Token(name)
    ensures |p| >= 13 && FieldVerdict(p, name) == CodeOwed(name, f)
  {
    hide Num, Magic, LayoutOk, NumAfter, TokEnd, Console, NoCaps, Hello, Counter, FaultDemo, FieldAt, Lexed, Token;
    Sizes(name, f);
    CutOrder(p, f, c);
    FieldBytes(p, c.j4, c.c1, f.caps);
    FieldBytes(p, c.c1, c.j5, f.size);
    FieldBytes(p, c.j5, |p|, f.check);
    CutReads(p, name, f, c);
    hide CutBy;
  }

  /** `p` is a record of the grammar: magic, name, four numbers, a word, a number and four hex digits, one space apart. */
  predicate Grammatical(p: seq<byte>, own: seq<byte>, f: Fields) { Token(own) && Lexed(f) && p == Written(own, f) }

  predicate SumRight(p: seq<byte>)
    requires |p| >= 13
  {
    ByteSum(p[..|p| - 5]) % TWO16 == Hex(p[|p| - 4..])
  }

  lemma GrammaticalTail(p: seq<byte>, own: seq<byte>, f: Fields) returns (c: Cuts)
    requires Grammatical(p, own, f)
    ensures |p| >= 13 && p[..7] == Magic() && p[|p| - 5] == SPACE && HexWord(p[|p| - 4..]) && f.check == p[|p| - 4..]
    ensures Headed(p, own, c.i1) && CutBy(p, f, c)
    ensures TokEnd(p, 7) == c.i1 > 7
  {
    hide Hex, ByteSum, Num, Magic, Written, Number, Token, HexWord, FieldAt, TokEnd, NumAfter, FieldVerdict;
    Sizes(own, f);
    c := CutsOfWritten(p, own, f);
    FieldBytes(p, c.j5, |p|, f.check);
    CutVerdict(p, own, f, c);
    CutReads(p, own, f, c);
    assert p[c.j5 + 1..|p|] == p[|p| - 4..];
  }

  lemma TailVerdict(p: seq<byte>, name: seq<byte>)
    requires |p| >= 13 && p[..7] == Magic() && p[|p| - 5] == SPACE && HexWord(p[|p| - 4..])
    ensures Verdict(p, name) == if SumRight(p) then FieldVerdict(p, name) else 2
  {
    hide Hex, ByteSum, Magic, HexWord, FieldVerdict;
    assert p[|p| - 4..|p| - 4 + 4] == p[|p| - 4..];
    HexBound(p[|p| - 4..]);
  }

  /** A record of the grammar: 2 if its sum is wrong, 1 if it is another image, and else the code its fields are owed. */
  lemma GrammaticalVerdict(p: seq<byte>, own: seq<byte>, f: Fields, name: seq<byte>)
    requires Grammatical(p, own, f)
    ensures |p| >= 13 && Verdict(p, name) == if !SumRight(p) then 2 else if name != own then 1 else CodeOwed(own, f)
  {
    hide Hex, ByteSum, Num, Magic, Written, Token, HexWord, TokEnd, CutBy, CodeOwed, Verdict, Lexed, NumAfter, FourNumbers,
      LayoutOk, Console, NoCaps, Hello, Counter, FaultDemo;
    var c := GrammaticalTail(p, own, f);
    TailVerdict(p, name);
    CutVerdict(p, own, f, c);
  }

  /** The word after the magic, up to a space or the end. */
  function FirstWord(p: seq<byte>): seq<byte>
    requires |p| >= 7
  {
    p[7..TokEnd(p, 7)]
  }

  lemma FoundIsGrammatical(p: seq<byte>, name: seq<byte>) returns (f: Fields)
    requires |p| >= 13 && FirstWord(p) == name != [] && FieldVerdict(p, name) != 4
    requires p[..7] == Magic() && p[|p| - 5] == SPACE && HexWord(p[|p| - 4..])
    ensures Grammatical(p, name, f)
  {
    hide Num, Magic, Written, Token, HexWord, CutBy, Lexed, FieldVerdict;
    var c;
    f, c := FieldsFound(p, name);
    Reassembled(p, name, f, c);
  }

  /**
   Anything else: 4 if it is too short, has no tail of a space and four hex digits, or
   has no name or a broken field; 1 if it starts differently or names another image;
   2 if its tail is no sum of what precedes it. Never a code that speaks of its policy.
   */
  lemma UngrammaticalVerdict(p: seq<byte>, name: seq<byte>)
    requires forall own: seq<byte>, f: Fields :: !Grammatical(p, own, f)
    ensures Verdict(p, name) ==
            if |p| < 13 then 4
            else if p[..7] != Magic() then 1
            else if p[|p| - 5] != SPACE || !HexWord(p[|p| - 4..]) then 4
            else if !SumRight(p) then 2
            else if FirstWord(p) != [] && FirstWord(p) != name then 1
            else 4
  {
    hide Hex, ByteSum, Num, Magic, Written, Token, HexWord, CutBy, Lexed, NumAfter, FourNumbers, LayoutOk,
      Console, NoCaps, Hello, Counter, FaultDemo;
    if |p| >= 13 && p[..7] == Magic() && p[|p| - 5] == SPACE {
      if HexWord(p[|p| - 4..]) {
        TailVerdict(p, name);
        if SumRight(p) && FirstWord(p) == name && name != [] && FieldVerdict(p, name) != 4 {
          var f := FoundIsGrammatical(p, name);
        }
      } else {
        assert p[|p| - 4..|p| - 4 + 4] == p[|p| - 4..];
      }
    }
  }

  /** A record the validator accepts is written by some fields that are acceptable. */
  lemma VerdictSound(p: seq<byte>, name: seq<byte>) returns (f: Fields)
    requires Verdict(p, name) == 0
    ensures Acceptable(p, name, f)
  {
    hide Hex, ByteSum, Num, Magic, Written, LayoutOk, Lexed, Token, Verdict, HexWord, TokEnd, Console, NoCaps, Hello, Counter,
      FaultDemo;
    if forall own: seq<byte>, g: Fields :: !Grammatical(p, own, g) {
      UngrammaticalVerdict(p, name);
      assert false;
    }
    var own;
    own, f :| Grammatical(p, own, f);
    GrammaticalVerdict(p, own, f, name);
    var c := GrammaticalTail(p, own, f);
  }

  lemma VerdictComplete(p: seq<byte>, name: seq<byte>, f: Fields)
    requires Acceptable(p, name, f)
    ensures Verdict(p, name) == 0
  {
    hide Hex, ByteSum, Magic, Written, Verdict, Lexed, Token, Num;
    var c := GrammaticalTail(p, name, f);
    GrammaticalVerdict(p, name, f, name);
  }

  lemma {:induction false} HexBound(s: seq<byte>)
    requires HexWord(s)
    ensures Hex(s) < 0x1_0000
  {
    assert forall i | 0 <= i < 4 :: HexDigit(s[i]) <= 15;
    var s3, s2, s1 := s[..3], s[..2], s[..1];
    assert s3[..2] == s2 && s2[..1] == s1 && s1[..0] == [];
    assert Hex(s1) <= 15;
    assert Hex(s2) <= 255;
    assert Hex(s3) <= 4095;
  }

  /**
   The validator accepts exactly the records of the grammar: magic, the requested
   name, four numbers, a capability word, a number and a four-digit checksum, one
   space apart and nothing else; with the byte sum, the layout and the policy
   right. Numbers are taken modulo 2^64.
   */
  lemma AcceptsExactlyTheGrammar(p: seq<byte>, name: seq<byte>)
    ensures Verdict(p, name) == 0 <==> exists f: Fields :: Acceptable(p, name, f)
  {
    if Verdict(p, name) == 0 {
      var f := VerdictSound(p, name);
    }
    if f: Fields :| Acceptable(p, name, f) {
      VerdictComplete(p, name, f);
    }
  }

  // ---- Numbers that wrap ----------------------------------------------------

  /** The layout rule on the numbers as they are written, unreduced. */
  predicate WrittenLayoutOk(f: Fields) {
    LayoutOk(Decimal(f.entry), Decimal(f.text), Decimal(f.rodata), Decimal(f.stack), Decimal(f.size))
  }

  predicate FitWords(f: Fields) {
    Decimal(f.entry) < TWO64 && Decimal(f.text) < TWO64 && Decimal(f.rodata) < TWO64 && Decimal(f.stack) < TWO64
    && Decimal(f.size) < TWO64
  }

  /** An accepted record keeps the layout bounds as written exactly if none of its numbers exceeds a 64-bit word. */
  lemma BoundsHoldIff(p: seq<byte>, name: seq<byte>, f: Fields)
    requires Acceptable(p, name, f)
    ensures WrittenLayoutOk(f) <==> FitWords(f)
  {
    hide Decimal, Written, Hex, ByteSum, PolicyOk, Lexed, Token;
  }

  lemma {:induction false} DecimalAppend(s: seq<byte>, t: seq<byte>)
    ensures Decimal(s + t) == Decimal(s) * Tens(|t|) + Decimal(t)
    decreases |t|
  {
    if t == [] {
      assert s + t == s;
    } else {
      var q, d := t[..|t| - 1], DigitOf(t[|t| - 1]);
      assert (s + t)[..|s + t| - 1] == s + q && (s + t)[|s + t| - 1] == t[|t| - 1];
      DecimalAppend(s, q);
      assert Decimal(s + t) == Decimal(s + q) * 10 + d;
      assert Decimal(t) == Decimal(q) * 10 + d;
      hide Decimal;
      Distribute(Decimal(s), Tens(|q|), Decimal(q), d);
    }
  }

  lemma Distribute(x: nat, p: nat, y: nat, d: nat)
    ensures (x * p + y) * 10 + d == x * (p * 10) + (y * 10 + d)
  {
    assert x * (p * 10) == x * p * 10;
  }

  function Tens(k: nat): nat { if k == 0 then 1 else Tens(k - 1) * 10 }

  lemma {:induction false} ByteSumAppend(s: seq<byte>, t: seq<byte>)
    ensures ByteSum(s + t) == ByteSum(s) + ByteSum(t)
    decreases |t|
  {
    if t == [] {
      assert s + t == s;
    } else {
      var q, b := t[..|t| - 1], t[|t| - 1];
      assert (s + t)[..|s + t| - 1] == s + q;
      ByteSumAppend(s, q);
    }
  }

  /** Four digits at once. */
  lemma FourDigits(a: byte, b: byte, c: byte, d: byte)
    requires IsDigit(a) && IsDigit(b) && IsDigit(c) && IsDigit(d)
    ensures Decimal([a, b, c, d]) == (a - 48) * 1000 + (b - 48) * 100 + (c - 48) * 10 + (d - 48)
  {
    var s := [a, b, c, d];
    assert s[..3] == [a, b, c] && [a, b, c][..2] == [a, b] && [a, b][..1] == [a] && [a][..0] == [];
    assert Decimal([a]) == a - 48;
    assert Decimal([a, b]) == (a - 48) * 10 + (b - 48);
    assert Decimal([a, b, c]) == (a - 48) * 100 + (b - 48) * 10 + (c - 48);
  }

  lemma OneByte(a: byte)
    ensures ByteSum([a]) == a && (IsDigit(a) ==> Decimal([a]) == a - 48)
  {
    assert [a][..0] == [];
  }

  /** 2^64 + 4096, in decimal. */
  function HugeText(): seq<byte> {
    [49, 56, 52, 52] + [54, 55, 52, 52] + [48, 55, 51, 55] + [48, 57, 53, 53] + [53, 55, 49, 50]
  }

  lemma HugeTextValue()
    ensures Decimal(HugeText()) == TWO64 + 4096
  {
    var a, b, c, d, e: seq<byte> := [49, 56, 52, 52], [54, 55, 52, 52], [48, 55, 51, 55], [48, 57, 53, 53], [53, 55, 49, 50];
    FourDigits(49, 56, 52, 52);
    FourDigits(54, 55, 52, 52);
    FourDigits(48, 55, 51, 55);
    FourDigits(48, 57, 53, 53);
    FourDigits(53, 55, 49, 50);
    hide Decimal;
    AppendFour(a, b);
    AppendFour(a + b, c);
    AppendFour(a + b + c, d);
    AppendFour(a + b + c + d, e);
  }

  lemma AppendFour(s: seq<byte>, t: seq<byte>)
    requires |t| == 4
    ensures Decimal(s + t) == Decimal(s) * 10000 + Decimal(t)
  {
    hide Decimal;
    assert Tens(2) == 100;
    assert Tens(4) == 10000;
    DecimalAppend(s, t);
  }

  lemma HugeTextSum()
    ensures ByteSum(HugeText()) == 1049
  {
    var a, b, c, d, e: seq<byte> := [49, 56, 52, 52], [54, 55, 52, 52], [48, 55, 51, 55], [48, 57, 53, 53], [53, 55, 49, 50];
    FourBytes(49, 56, 52, 52);
    FourBytes(54, 55, 52, 52);
    FourBytes(48, 55, 51, 55);
    FourBytes(48, 57, 53, 53);
    FourBytes(53, 55, 49, 50);
    hide ByteSum;
    ByteSumAppend(a, b);
    ByteSumAppend(a + b, c);
    ByteSumAppend(a + b + c, d);
    ByteSumAppend(a + b + c + d, e);
  }

  lemma HugeTextIsNumber()
    ensures Number(HugeText())
  {
  }

  /** Fields of "AXAPP1 hello 0 18446744073709555712 0 1 none 4096 0bcc". */
  function HugeFields(): Fields {
    Fields([48], HugeText(), [48], [49], NoCaps(), [52, 48, 57, 54], [48, 98, 99, 99])
  }

  lemma HugeFieldsFine()
    ensures Lexed(HugeFields()) && Token(Hello()) && Hex([48, 98, 99, 99]) == 0x0BCC
    ensures WellLaidOut(HugeFields()) && PolicyOk(Hello(), NoCaps())
  {
    HugeTextValue();
    HugeTextIsNumber();
    OneByte(48);
    OneByte(49);
    FourDigits(52, 48, 57, 54);
    var h: seq<byte> := [48, 98, 99, 99];
    assert h[..3] == [48, 98, 99] && h[..3][..2] == [48, 98] && [48, 98][..1] == [48] && [48][..0] == [];
    assert Hex([48]) == 0 && Hex([48, 98]) == 11 && Hex([48, 98, 99]) == 188;
    hide Decimal, ByteSum, HugeText;
  }

  /** What precedes the checksum field. */
  function HugeBody(): seq<byte> {
    Magic() + (Hello() + (Spaced([48]) + (Spaced(HugeText()) + (Spaced([48]) + (Spaced([49]) + (Spaced(NoCaps())
    + Spaced([52, 48, 57, 54])))))))
  }

  lemma HugeBodySplit()
    ensures Written(Hello(), HugeFields()) == HugeBody() + Spaced([48, 98, 99, 99])
  {
    hide HugeText, Spaced, Magic, Hello, NoCaps;
    var t1, t2, t3, t4, t5, t6, t7 := Spaced([48]), Spaced(HugeText()), Spaced([48]), Spaced([49]), Spaced(NoCaps()),
      Spaced([52, 48, 57, 54]), Spaced([48, 98, 99, 99]);
    var w := Word([48, 98, 99, 99], End);
    assert Joined(End) == [];
    assert Joined(w) == t7 + [] == t7;
    w := Word([52, 48, 57, 54], w);
    assert Joined(w) == t6 + t7;
    w := Word(NoCaps(), w);
    assert Joined(w) == t5 + (t6 + t7);
    w := Word([49], w);
    assert Joined(w) == t4 + (t5 + (t6 + t7));
    w := Word([48], w);
    assert Joined(w) == t3 + (t4 + (t5 + (t6 + t7)));
    w := Word(HugeText(), w);
    assert Joined(w) == t2 + (t3 + (t4 + (t5 + (t6 + t7))));
    w := Word([48], w);
    assert Joined(w) == t1 + (t2 + (t3 + (t4 + (t5 + (t6 + t7)))));
    Front8(Magic(), Hello(), t1, t2, t3, t4, t5, t6, t7);
  }

  lemma Front8(a: seq<byte>, b: seq<byte>, c: seq<byte>, d: seq<byte>, e: seq<byte>, f: seq<byte>, g: seq<byte>, h: seq<byte>,
               z: seq<byte>)
    ensures a + (b + (c + (d + (e + (f + (g + (h + z))))))) == (a + (b + (c + (d + (e + (f + (g + h))))))) + z
  {
    var s := g + h;
    assert g + (h + z) == s + z;
    var s2 := f + s;
    assert f + (s + z) == s2 + z;
    var s3 := e + s2;
    assert e + (s2 + z) == s3 + z;
    var s4 := d + s3;
    assert d + (s3 + z) == s4 + z;
    var s5 := c + s4;
    assert c + (s4 + z) == s5 + z;
    var s6 := b + s5;
    assert b + (s5 + z) == s6 + z;
  }

  lemma SpacedSum(s: seq<byte>)
    ensures ByteSum(Spaced(s)) == 32 + ByteSum(s)
  {
    ByteSumAppend([SPACE], s);
    OneByte(SPACE);
  }

  lemma HugeSum()
    ensures ByteSum(HugeBody()) == 0x0BCC
  {
    HugeTextSum();
    WordSums();
    hide ByteSum, HugeText, Magic, Hello, NoCaps, Spaced, Decimal;
    var t1, t2, t4, t5, t6 := Spaced([48]), Spaced(HugeText()), Spaced([49]), Spaced(NoCaps()), Spaced([52, 48, 57, 54]);
    SpacedSum([48]);
    SpacedSum(HugeText());
    SpacedSum([49]);
    SpacedSum(NoCaps());
    SpacedSum([52, 48, 57, 54]);
    ByteSumAppend(t5, t6);
    ByteSumAppend(t4, t5 + t6);
    ByteSumAppend(t1, t4 + (t5 + t6));
    ByteSumAppend(t2, t1 + (t4 + (t5 + t6)));
    ByteSumAppend(t1, t2 + (t1 + (t4 + (t5 + t6))));
    ByteSumAppend(Hello(), t1 + (t2 + (t1 + (t4 + (t5 + t6)))));
    ByteSumAppend(Magic(), Hello() + (t1 + (t2 + (t1 + (t4 + (t5 + t6))))));
  }

  lemma WordSums()
    ensures ByteSum(Magic()) == 459 && ByteSum(Hello()) == 532 && ByteSum(NoCaps()) == 432
    ensures ByteSum([48]) == 48 && ByteSum([49]) == 49 && ByteSum([52, 48, 57, 54]) == 211
  {
    OneByte(48);
    OneByte(49);
    FourBytes(52, 48, 57, 54);
    FourBytes(110, 111, 110, 101);
    FourBytes(104, 101, 108, 108);
    OneByte(111);
    FourBytes(65, 88, 65, 80);
    ThreeBytes(80, 49, 32);
    hide ByteSum;
    ByteSumAppend([104, 101, 108, 108], [111]);
    ByteSumAppend([65, 88, 65, 80], [80, 49, 32]);
    assert Hello() == [104, 101, 108, 108] + [111];
    assert Magic() == [65, 88, 65, 80] + [80, 49, 32];
  }

  lemma ThreeBytes(a: byte, b: byte, c: byte)
    ensures ByteSum([a, b, c]) == a + b + c
  {
    assert [a, b, c][..2] == [a, b] && [a, b][..1] == [a] && [a][..0] == [];
    assert ByteSum([a]) == a && ByteSum([a, b]) == a + b;
  }

  lemma FourBytes(a: byte, b: byte, c: byte, d: byte)
    ensures ByteSum([a, b, c, d]) == a + b + c + d
  {
    ThreeBytes(a, b, c);
    assert [a, b, c, d][..3] == [a, b, c];
  }

  /** A record whose written text size is far beyond every bound, and which is accepted as one of 4096 bytes. */
  lemma HugeTextIsAccepted()
    ensures Verdict(Written(Hello(), HugeFields()), Hello()) == 0
    ensures Decimal(HugeFields().text) == TWO64 + 4096 && !WrittenLayoutOk(HugeFields())
  {
    var p, f := Written(Hello(), HugeFields()), HugeFields();
    HugeFieldsFine();
    HugeTextValue();
    HugeBodySplit();
    HugeSum();
    hide Decimal, ByteSum, HugeText, HugeBody, Hello, NoCaps, Hex, Lexed, Token, Verdict, Written, PolicyOk;
    assert |Spaced([48, 98, 99, 99])| == 5;
    assert p[..|p| - 5] == HugeBody();
    VerdictComplete(p, Hello(), f);
  }

  // ---- Mapping admission ----------------------------------------------------

  const KERNEL_BASE: nat := 0x8000_0000
  const MAX_IMAGE_BYTES: nat := 131_072

  datatype ImageLayout = ImageLayout(baseVa: u64, entryOffset: u64, textSize: u64, rodataSize: u64, stackPages: u64)
  datatype MapReject = EmptyText | EntryOutOfText | Oversized | KernelAddress | StackPolicy

  function CheckedAdd(a: nat, b: nat): Option<nat> { if a + b < TWO64 then Some(a + b) else None }

  function SaturatingMul(a: nat, b: nat): nat { if a * b < TWO64 then a * b else TWO64 - 1 }

  function AdmitImageMapping(l: ImageLayout): Result<(), MapReject> {
    if l.textSize == 0 then Err(EmptyText)
    else if l.entryOffset >= l.textSize then Err(EntryOutOfText)
    else
      var image := CheckedAdd(l.textSize, l.rodataSize);
      if image.None? || image.value > MAX_IMAGE_BYTES then Err(Oversized)
      else if l.stackPages != 1 then Err(StackPolicy)
      else
        var span := CheckedAdd(image.value, SaturatingMul(l.stackPages, 4096));
        var end := if span.None? then None else CheckedAdd(l.baseVa, span.value);
        if end.Some? && l.baseVa < KERNEL_BASE && end.value <= KERNEL_BASE then Ok(()) else Err(KernelAddress)
  }

  /** What is admitted, for every layout, and the reason where it is not: the first rule broken. */
  lemma AdmittedIff(l: ImageLayout)
    ensures AdmitImageMapping(l).Ok? <==>
              && l.entryOffset < l.textSize && l.textSize + l.rodataSize <= 131_072 && l.stackPages == 1
              && l.baseVa + l.textSize + l.rodataSize + 4096 <= 0x8000_0000
    ensures AdmitImageMapping(l) == Err(EmptyText) <==> l.textSize == 0
    ensures AdmitImageMapping(l) == Err(EntryOutOfText) <==> 0 < l.textSize <= l.entryOffset
    ensures AdmitImageMapping(l) == Err(Oversized) <==>
              l.entryOffset < l.textSize && l.textSize + l.rodataSize > 131_072
    ensures AdmitImageMapping(l) == Err(StackPolicy) <==>
              l.entryOffset < l.textSize && l.textSize + l.rodataSize <= 131_072 && l.stackPages != 1
  {
  }

  /** The layout an accepted record describes, at a base of the mapper's choosing. */
  function LayoutAt(f: Fields, base: u64): ImageLayout {
    ImageLayout(base, Num(f.entry), Num(f.text), Num(f.rodata), Num(f.stack))
  }

  /**
   Whatever record the loader accepts, the kernel rule admits its layout at exactly
   those bases whose span, image and stack page, ends at or below the kernel.
   */
  lemma AcceptedIsAdmitted(p: seq<byte>, name: seq<byte>, f: Fields, base: u64)
    requires Acceptable(p, name, f)
    ensures AdmitImageMapping(LayoutAt(f, base)) ==
            if base + Num(f.size) + 4096 <= KERNEL_BASE then Ok(()) else Err(KernelAddress)
  {
    hide Num, Written, Hex, ByteSum, PolicyOk;
  }

  // ---- The loops ------------------------------------------------------------

  method FindTokEnd(p: seq<byte>, i: nat) returns (j: nat)
    requires i <= |p|
    ensures j == TokEnd(p, i)
  {
    j := i;
    while j < |p|
      invariant i <= j <= |p|
      invariant forall k | i <= k < j :: p[k] != SPACE
    {
      if p[j] == SPACE {
        break;
      }
      j := j + 1;
    }
    TokenStop(p, i, j);
  }

  method ParseHex4(p: seq<byte>, i: nat) returns (v: nat)
    requires i + 4 <= |p|
    ensures v == Hex4(p, i)
  {
    v := 0;
    ghost var w := p[i..i + 4];
    var k: nat := 0;
    while k < 4
      invariant 0 <= k <= 4
      invariant forall j | 0 <= j < k :: IsHex(w[j])
      invariant v == Hex(w[..k])
    {
      var b := p[i + k];
      assert b == w[k];
      var d: nat;
      if 48 <= b <= 57 {
        d := b - 48;
      } else if 97 <= b <= 102 {
        d := b - 97 + 10;
      } else {
        return BAD_HEX;
      }
      assert w[..k + 1] == w[..k] + [b];
      v := v * 16 + d;
      k := k + 1;
    }
    assert w[..4] == w;
  }

  method CkSum(p: seq<byte>, end: nat) returns (s: nat)
    requires end <= |p|
    ensures s == ByteSum(p[..end]) % TWO16
  {
    s := 0;
    var i: nat := 0;
    while i < end
      invariant 0 <= i <= end
      invariant s == ByteSum(p[..i]) % TWO16
    {
      assert p[..i + 1] == p[..i] + [p[i]];
      s := (s + p[i]) % TWO16;
      i := i + 1;
    }
  }

  method ParseDecStop(p: seq<byte>, from: nat) returns (v: nat, i: nat)
    requires from <= |p|
    ensures (v, i) == DecStop(p, from)
  {
    assert Decimal(p[from..from]) == 0;
    hide Decimal, DigitsEnd;
    v, i := 0, from;
    var any := false;
    while i < |p|
      invariant from <= i <= |p|
      invariant forall k | from <= k < i :: IsDigit(p[k])
      invariant v == Decimal(p[from..i]) % TWO64
      invariant any <==> i > from
    {
      var b := p[i];
      if b < 48 || b > 57 {
        break;
      }
      DecimalSnoc(p[from..i], b);
      assert p[from..i + 1] == p[from..i] + [b];
      WrapStep(Decimal(p[from..i]), b - 48);
      v := (v * 10 % TWO64 + (b - 48)) % TWO64;
      i := i + 1;
      any := true;
    }
    DigitsStop(p, from, i);
    if !any {
      v := BAD_NUM;
    }
  }

  lemma DecimalSnoc(s: seq<byte>, b: byte)
    requires IsDigit(b)
    ensures Decimal(s + [b]) == Decimal(s) * 10 + (b - 48)
  {
    assert (s + [b])[..|s|] == s;
  }

  /** Wrapping multiply and add, step by step, is arithmetic modulo 2^64. */
  lemma WrapStep(n: nat, d: nat)
    ensures (n % TWO64 * 10 % TWO64 + d) % TWO64 == (n * 10 + d) % TWO64
  {
    var q, r := n / TWO64, n % TWO64;
    assert n * 10 + d == r * 10 + d + (q * 10) * TWO64;
    var q2, r2 := r * 10 / TWO64, r * 10 % TWO64;
    assert r * 10 + d == r2 + d + q2 * TWO64;
  }

  method LdNumAfter(p: seq<byte>, j: nat) returns (v: nat, i: nat)
    requires j <= |p|
    ensures (v, i) == NumAfter(p, j)
  {
    if j >= |p| || p[j] != SPACE {
      return BAD_NUM, j;
    }
    v, i := ParseDecStop(p, j + 1);
  }

  method Eqs(p: seq<byte>, q: seq<byte>) returns (same: bool)
    ensures same <==> p == q
  {
    if |p| != |q| {
      return false;
    }
    var i := 0;
    while i < |p|
      invariant 0 <= i <= |p|
      invariant p[..i] == q[..i]
    {
      if p[i] != q[i] {
        return false;
      }
      i := i + 1;
    }
    return true;
  }

  /** The validator itself; every read is inside the record. */
  method LdValidate(p: seq<byte>, name: seq<byte>) returns (code: nat)
    ensures code == Verdict(p, name)
    ensures code == 0 <==> exists f: Fields :: Acceptable(p, name, f)
  {
    hide Acceptable, Decimal, Hex, ByteSum, TokEnd, DigitsEnd;
    AcceptsExactlyTheGrammar(p, name);
    if |p| < 13 {
      return 4;
    }
    var starts := Eqs(p[..7], Magic());
    if !starts {
      return 1;
    }
    if p[|p| - 5] != SPACE {
      return 4;
    }
    var want := ParseHex4(p, |p| - 4);
    if want == BAD_HEX {
      return 4;
    }
    var sum := CkSum(p, |p| - 5);
    if sum != want {
      return 2;
    }
    code := ValidateFields(p, name);
  }

  method ValidateFields(p: seq<byte>, name: seq<byte>) returns (code: nat)
    requires |p| >= 13
    ensures code == FieldVerdict(p, name)
  {
    hide Decimal, TokEnd, DigitsEnd, NumAfter;
    var i1 := FindTokEnd(p, 7);
    if i1 <= 7 {
      return 4;
    }
    var named := Eqs(p[7..i1], name);
    if !named {
      return 1;
    }
    var e, j1 := LdNumAfter(p, i1);
    var t, j2 := LdNumAfter(p, j1);
    var rd, j3 := LdNumAfter(p, j2);
    var s, j4 := LdNumAfter(p, j3);
    if e == BAD_NUM || t == BAD_NUM || rd == BAD_NUM || s == BAD_NUM {
      return 4;
    }
    if j4 >= |p| || p[j4] != SPACE {
      return 4;
    }
    var c0 := j4 + 1;
    var c1 := FindTokEnd(p, c0);
    if c1 <= c0 {
      return 4;
    }
    var z, j5 := LdNumAfter(p, c1);
    if z == BAD_NUM || j5 != |p| - 5 {
      return 4;
    }
    if t == 0 || t > 65536 || rd > 65536 || z != t + rd || z > 131072 || e >= t || s != 1 {
      return 1;
    }
    var wantConsole := Eqs(p[c0..c1], Console());
    var wantNone := Eqs(p[c0..c1], NoCaps());
    if !wantConsole && !wantNone {
      return 3;
    }
    var hello := Eqs(name, Hello());
    var counter := Eqs(name, Counter());
    if hello || counter {
      return 0;
    }
    var demo := Eqs(name, FaultDemo());
    if demo {
      if wantConsole {
        return 3;
      }
      return 0;
    }
    return 5;
  }
}
