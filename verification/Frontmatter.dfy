/**
 The flat frontmatter of collaboration records: printing a set of keys with boolean, integer and text
 values, and reading a document back. Lines are split the way Python splits them, at ten characters.
 */
module Frontmatter {
  import opened Options
  import opened Ordering
  import opened Text

  datatype Scalar = Flag(flag: bool) | Number(number: int) | Words(words: string)

  type Values = map<string, Scalar>

  datatype Document = Document(values: Values, body: string)

  // ---- Characters ----

  predicate Boundary(c: char) {
    c == '\n' || c == '\r' || '\U{b}' <= c <= '\U{c}' || '\U{1c}' <= c <= '\U{1e}' || Unescaped(c)
  }

  /** The line boundaries that a quoted value keeps as they are. */
  predicate Unescaped(c: char) {
    c == '\U{85}' || c == '\U{2028}' || c == '\U{2029}'
  }

  predicate Space(c: char) {
    || '\t' <= c <= '\r' || '\U{1c}' <= c <= ' ' || c == '\U{85}' || c == '\U{a0}' || c == '\U{1680}'
    || '\U{2000}' <= c <= '\U{200a}' || c == '\U{2028}' || c == '\U{2029}' || c == '\U{202f}' || c == '\U{205f}' || c == '\U{3000}'
  }

  function StripLeft(s: string): string {
    if s != "" && Space(s[0]) then StripLeft(s[1..]) else s
  }

  function StripRight(s: string): string {
    if s != "" && Space(s[|s| - 1]) then StripRight(s[..|s| - 1]) else s
  }

  function Strip(s: string): string {
    StripRight(StripLeft(s))
  }

  // ---- Lines ----

  /** How much of a text its first line takes, its boundary included. */
  function FirstLine(s: string): (n: nat)
    requires s != ""
    ensures 1 <= n <= |s|
  {
    if s[0] == '\r' && |s| > 1 && s[1] == '\n' then 2
    else if Boundary(s[0]) || |s| == 1 then 1
    else 1 + FirstLine(s[1..])
  }

  function Lines(s: string): seq<string>
    decreases |s|
  {
    if s == "" then [] else [s[..FirstLine(s)]] + Lines(s[FirstLine(s)..])
  }

  function Concat(lines: seq<string>): string {
    if lines == [] then "" else lines[0] + Concat(lines[1..])
  }

  lemma {:induction false} ConcatLines(s: string)
    ensures Concat(Lines(s)) == s
    decreases |s|
  {
    if s != "" {
      var n := FirstLine(s);
      ConcatLines(s[n..]);
      assert Lines(s)[1..] == Lines(s[n..]);
      assert s == s[..n] + s[n..];
    }
  }

  /** A line as it is printed: no boundary before its closing line feed. */
  predicate Plain(line: string) {
    line != "" && line[|line| - 1] == '\n' && Unbroken(line[..|line| - 1])
  }

  predicate Unbroken(s: string) {
    forall i :: 0 <= i < |s| ==> !Boundary(s[i])
  }

  /** A stretch without boundaries, and then one that ends it, is the first line. */
  lemma {:induction false} LineEnds(content: string, c: char, rest: string)
    requires Unbroken(content) && Boundary(c) && c != '\r'
    ensures FirstLine(content + [c] + rest) == |content| + 1
    decreases |content|
  {
    var s := content + [c] + rest;
    if content != "" {
      assert s[1..] == content[1..] + [c] + rest;
      LineEnds(content[1..], c, rest);
    }
  }

  lemma LinesStart(content: string, c: char, rest: string)
    requires Unbroken(content) && Boundary(c) && c != '\r'
    ensures Lines(content + [c] + rest) == [content + [c]] + Lines(rest)
  {
    var s := content + [c] + rest;
    LineEnds(content, c, rest);
    assert s[..|content| + 1] == content + [c] && s[|content| + 1..] == rest;
  }

  lemma {:induction false} LinesOfPlain(lines: seq<string>, rest: string)
    requires forall l :: l in lines ==> Plain(l)
    ensures Lines(Concat(lines) + rest) == lines + Lines(rest)
    decreases |lines|
  {
    if lines == [] {
      assert Concat(lines) + rest == rest;
    } else {
      var l, tail := lines[0], Concat(lines[1..]) + rest;
      LinesOfPlain(lines[1..], rest);
      assert Lines(l + tail) == [l] + Lines(tail) by {
        assert Plain(l);
        assert l == l[..|l| - 1] + ['\n'];
        LinesStart(l[..|l| - 1], '\n', tail);
      }
      assert Concat(lines) + rest == l + tail;
      assert lines + Lines(rest) == [l] + (lines[1..] + Lines(rest));
    }
  }

  // ---- Stripping ----

  lemma {:induction false} StripRightShape(s: string)
    ensures StripRight(s) <= s
    ensures s != "" && !Space(s[0]) ==> StripRight(s) != ""
    ensures s != "" && Space(s[|s| - 1]) ==> |StripRight(s)| < |s|
    decreases |s|
  {
    if s != "" && Space(s[|s| - 1]) {
      StripRightShape(s[..|s| - 1]);
    }
  }

  lemma StripHead(s: string)
    requires s != "" && !Space(s[0])
    ensures Strip(s) == StripRight(s) <= s && Strip(s) != "" && Strip(s)[0] == s[0]
  {
    StripRightShape(s);
  }

  lemma StripEnds(q: string, c: char)
    requires q != "" && !Space(q[0]) && !Space(q[|q| - 1]) && Space(c)
    ensures Strip(" " + q + [c]) == q
  {
    var s := " " + q + [c];
    assert s[1..] == q + [c];
    assert StripLeft(s) == StripLeft(q + [c]) == q + [c];
    assert (q + [c])[..|q|] == q;
    assert StripRight(q) == q;
  }

  // ---- Quoted text ----

  function Hex(n: nat): char
    requires n < 16
  {
    if n < 10 then ('0' as int + n) as char else ('a' as int + n - 10) as char
  }

  function HexValue(c: char): Option<nat> {
    if '0' <= c <= '9' then Some(c as int - '0' as int)
    else if 'a' <= c <= 'f' then Some(c as int - 'a' as int + 10)
    else if 'A' <= c <= 'F' then Some(c as int - 'A' as int + 10)
    else None
  }

  /** The letter that stands for a character after a backslash. */
  function ShortEscape(c: char): Option<char> {
    if c == '"' || c == '\\' then Some(c)
    else if c == '\n' then Some('n')
    else if c == '\r' then Some('r')
    else if c == '\t' then Some('t')
    else if c == '\U{8}' then Some('b')
    else if c == '\U{c}' then Some('f')
    else None
  }

  function Escape(c: char): string {
    if ShortEscape(c).Some? then ['\\', ShortEscape(c).value]
    else if c < ' ' then ['\\', 'u', '0', '0', Hex(c as int / 16), Hex(c as int % 16)]
    else [c]
  }

  function Escaped(s: string): string {
    if s == "" then "" else Escape(s[0]) + Escaped(s[1..])
  }

  function Quote(s: string): string {
    "\"" + Escaped(s) + "\""
  }

  function SimpleEscape(c: char): Option<char> {
    if c == '"' then Some('"') else if c == '\\' then Some('\\') else if c == '/' then Some('/')
    else if c == 'n' then Some('\n') else if c == 'r' then Some('\r') else if c == 't' then Some('\t')
    else if c == 'b' then Some('\U{8}') else if c == 'f' then Some('\U{c}')
    else None
  }

  function FourHex(s: string): Option<nat>
  {
    if |s| < 4 then None
    else
      var a, b, c, d := HexValue(s[0]), HexValue(s[1]), HexValue(s[2]), HexValue(s[3]);
      if a.None? || b.None? || c.None? || d.None? then None
      else Some(4096 * a.value + 256 * b.value + 16 * c.value + d.value)
  }

  predicate Scalar16(n: nat) {
    n < 0xD800 || 0xE000 <= n < 0x10000
  }

  /** The second half of a surrogate pair, if one is escaped here. */
  function LowHalf(s: string): Option<nat> {
    if |s| >= 2 && s[0] == '\\' && s[1] == 'u' && FourHex(s[2..]).Some? && 0xDC00 <= FourHex(s[2..]).value < 0xE000
    then FourHex(s[2..]) else None
  }

  function Prefixed(c: char, rest: Option<string>): Option<string> {
    if rest.None? then None else Some([c] + rest.value)
  }

  /** What follows an opening quote, up to a closing one that must be the last character. */
  function Unquote(s: string): Option<string>
    decreases |s|
  {
    if s == "" then None
    else if s[0] == '"' then (if |s| == 1 then Some("") else None)
    else if s[0] < ' ' then None
    else if s[0] != '\\' then Prefixed(s[0], Unquote(s[1..]))
    else if |s| < 2 then None
    else if s[1] == 'u' then UnquoteHex(s)
    else if SimpleEscape(s[1]).None? then None
    else Prefixed(SimpleEscape(s[1]).value, Unquote(s[2..]))
  }

  function UnquoteHex(s: string): Option<string>
    requires |s| >= 2
    decreases |s|, 0
  {
    var n := FourHex(s[2..]);
    if n.None? then None
    else if Scalar16(n.value) then Prefixed(n.value as char, Unquote(s[6..]))
    else if 0xD800 <= n.value < 0xDC00 && LowHalf(s[6..]).Some? then
      Prefixed((0x10000 + 0x400 * (n.value - 0xD800) + (LowHalf(s[6..]).value - 0xDC00)) as char, Unquote(s[12..]))
    else None
  }

  lemma UnquotePlain(c: char, rest: string)
    requires c >= ' ' && c != '"' && c != '\\'
    ensures Unquote([c] + rest) == Prefixed(c, Unquote(rest))
  {
    assert ([c] + rest)[1..] == rest;
  }

  lemma UnquoteShort(x: char, rest: string)
    requires x != 'u' && SimpleEscape(x).Some?
    ensures Unquote(['\\', x] + rest) == Prefixed(SimpleEscape(x).value, Unquote(rest))
  {
    assert (['\\', x] + rest)[2..] == rest;
  }

  lemma UnquoteFour(hex: string, rest: string)
    requires |hex| == 4 && FourHex(hex).Some? && Scalar16(FourHex(hex).value)
    ensures Unquote(['\\', 'u'] + hex + rest) == Prefixed(FourHex(hex).value as char, Unquote(rest))
  {
    var s := ['\\', 'u'] + hex + rest;
    assert s[2..] == hex + rest;
    assert forall i :: 0 <= i < 4 ==> (hex + rest)[i] == hex[i];
    assert FourHex(hex + rest) == FourHex(hex);
    assert s[6..] == rest;
  }

  lemma ControlHex(n: nat)
    requires n < 32
    ensures FourHex(['0', '0', Hex(n / 16), Hex(n % 16)]) == Some(n)
  {
  }

  lemma EscapeStep(c: char, rest: string)
    ensures Unquote(Escape(c) + rest) == Prefixed(c, Unquote(rest))
  {
    if ShortEscape(c).Some? {
      UnquoteShort(ShortEscape(c).value, rest);
    } else if c < ' ' {
      var hex := ['0', '0', Hex(c as int / 16), Hex(c as int % 16)];
      ControlHex(c as int);
      UnquoteFour(hex, rest);
      assert Escape(c) == ['\\', 'u'] + hex;
    } else {
      UnquotePlain(c, rest);
    }
  }

  /** A quoted text is read back exactly. */
  lemma {:induction false} UnquoteEscaped(s: string)
    ensures Unquote(Escaped(s) + "\"") == Some(s)
    decreases |s|
  {
    if s != "" {
      UnquoteEscaped(s[1..]);
      EscapeStep(s[0], Escaped(s[1..]) + "\"");
      assert Escaped(s) + "\"" == Escape(s[0]) + (Escaped(s[1..]) + "\"");
      assert s == [s[0]] + s[1..];
    }
  }

  /** Any part of it that lacks the closing quote is not. */
  lemma {:induction false} UnquotePart(s: string, p: string)
    requires p <= Escaped(s)
    ensures Unquote(p) == None
    decreases |s|
  {
    if s != "" {
      var e := Escape(s[0]);
      if |e| <= |p| {
        assert p == e + p[|e|..];
        assert p[|e|..] <= Escaped(s[1..]);
        UnquotePart(s[1..], p[|e|..]);
        EscapeStep(s[0], p[|e|..]);
      } else if p != "" {
        assert p[0] == e[0];
        if |p| >= 2 {
          assert p[1] == e[1];
        }
      }
    }
  }

  lemma {:induction false} EscapedSplits(a: string, b: string)
    ensures Escaped(a + b) == Escaped(a) + Escaped(b)
    decreases |a|
  {
    if a == "" {
      assert a + b == b;
    } else {
      EscapedSplits(a[1..], b);
      assert (a + b)[1..] == a[1..] + b && (a + b)[0] == a[0];
      var e, ea, eb := Escape(a[0]), Escaped(a[1..]), Escaped(b);
      assert Escaped(a + b) == e + (ea + eb);
      assert e + (ea + eb) == (e + ea) + eb;
    }
  }

  predicate CleanText(s: string) {
    forall i :: 0 <= i < |s| ==> !Unescaped(s[i])
  }

  lemma {:induction false} EscapedPlain(s: string)
    requires CleanText(s)
    ensures Unbroken(Escaped(s))
    decreases |s|
  {
    if s != "" {
      EscapedPlain(s[1..]);
      assert !Unescaped(s[0]);
      assert Unbroken(Escape(s[0]));
    }
  }

  lemma {:induction false} FirstUnescaped(s: string) returns (i: nat)
    requires !CleanText(s)
    ensures i < |s| && Unescaped(s[i]) && CleanText(s[..i])
    decreases |s|
  {
    if Unescaped(s[0]) {
      i := 0;
    } else {
      assert !CleanText(s[1..]) by {
        var j :| 0 <= j < |s| && Unescaped(s[j]);
        assert s[1..][j - 1] == s[j];
      }
      var k := FirstUnescaped(s[1..]);
      i := k + 1;
      assert s[..i] == [s[0]] + s[1..][..k];
    }
  }

  /** Up to the first boundary that is not escaped, a text prints on one line. */
  lemma DirtySplits(s: string) returns (clean: string, c: char, rest: string)
    requires !CleanText(s)
    ensures CleanText(clean) && Unescaped(c) && Escaped(s) == Escaped(clean) + [c] + Escaped(rest)
  {
    var i := FirstUnescaped(s);
    clean, c, rest := s[..i], s[i], s[i + 1..];
    EscapedSplits(clean, [c] + rest);
    assert s == clean + ([c] + rest);
    assert ([c] + rest)[1..] == rest;
    assert Escaped([c] + rest) == [c] + Escaped(rest);
  }

  // ---- Values ----

  function PrintInt(n: int): string {
    if n < 0 then "-" + Itoa(-n) else Itoa(n)
  }

  function PrintScalar(v: Scalar): string {
    match v
    case Flag(b) => if b then "true" else "false"
    case Number(n) => PrintInt(n)
    case Words(s) => Quote(s)
  }

  function ParseInt(raw: string): Option<int> {
    if raw != "" && raw[0] == '-' && Digits(raw[1..]) then Some(0 - Value(raw[1..]) as int)
    else if Digits(raw) then Some(Value(raw) as int)
    else None
  }

  function ParseScalar(text: string): Option<Scalar> {
    var raw := Strip(text);
    if raw != "" && raw[0] == '"' then
      (match Unquote(raw[1..]) case Some(s) => Some(Words(s)) case None => None)
    else if |raw| >= 2 && raw[0] == '\'' && raw[|raw| - 1] == '\'' then Some(Words(raw[1..|raw| - 1]))
    else if raw == "true" then Some(Flag(true))
    else if raw == "false" then Some(Flag(false))
    else if ParseInt(raw).Some? then Some(Number(ParseInt(raw).value))
    else Some(Words(raw))
  }

  predicate Clean(v: Scalar) {
    v.Words? ==> CleanText(v.words)
  }

  lemma ParseMinus(d: string)
    requires Digits(d)
    ensures ParseInt("-" + d) == Some(0 - Value(d))
  {
    assert ("-" + d)[1..] == d;
  }

  lemma ParsePlain(d: string)
    requires Digits(d)
    ensures ParseInt(d) == Some(Value(d) as int)
  {
    assert Digit(d[0]);
  }

  /** The text of a number: digits, perhaps after a sign. */
  predicate NumberText(s: string) {
    s != "" && forall i :: 0 <= i < |s| ==> Digit(s[i]) || s[i] == '-'
  }

  lemma PrintIntPlain(n: int)
    ensures NumberText(PrintInt(n)) && ParseInt(PrintInt(n)) == Some(n)
  {
    var m: nat := if n < 0 then -n else n;
    ItoaValue(m);
    if n < 0 {
      ParseMinus(Itoa(m));
    } else {
      ParsePlain(Itoa(m));
    }
  }

  lemma IntRoundTrip(n: int, c: char)
    requires Space(c)
    ensures Unbroken(PrintInt(n)) && ParseScalar(" " + PrintInt(n) + [c]) == Some(Number(n))
  {
    var q := PrintInt(n);
    PrintIntPlain(n);
    StripEnds(q, c);
    assert q[0] == '-' || Digit(q[0]);
  }

  lemma QuoteRoundTrip(s: string, c: char)
    requires CleanText(s) && Space(c)
    ensures Unbroken(Quote(s)) && ParseScalar(" " + Quote(s) + [c]) == Some(Words(s))
  {
    EscapedPlain(s);
    StripEnds(Quote(s), c);
    UnquoteEscaped(s);
    assert Quote(s)[1..] == Escaped(s) + "\"";
  }

  /** A printed value stands on one line and is read back, whatever white space ends the line. */
  lemma ScalarRoundTrip(v: Scalar, c: char)
    requires Clean(v) && Space(c)
    ensures Unbroken(PrintScalar(v))
    ensures ParseScalar(" " + PrintScalar(v) + [c]) == Some(v)
  {
    match v {
      case Flag(b) => StripEnds(PrintScalar(v), c);
      case Number(n) => IntRoundTrip(n, c);
      case Words(s) => QuoteRoundTrip(s, c);
    }
  }

  lemma StripCut(p: string, c: char)
    requires Space(c)
    ensures var raw := Strip(" \"" + p + [c]); raw != "" && raw[0] == '"' && raw[1..] <= p
  {
    var s, t := " \"" + p + [c], "\"" + p + [c];
    assert s[1..] == t;
    assert StripLeft(s) == StripLeft(t) == t;
    StripRightShape(t);
    var raw := StripRight(t);
    assert raw == t[..|raw|];
    assert t[1..] == p + [c];
    assert raw[1..] == t[1..][..|raw| - 1];
  }

  /** A quoted value cut off at a line boundary is refused. */
  lemma CutScalarRefused(clean: string, c: char)
    requires Unescaped(c)
    ensures ParseScalar(" \"" + Escaped(clean) + [c]) == None
  {
    var s := " \"" + Escaped(clean) + [c];
    StripCut(Escaped(clean), c);
    UnquotePart(clean, Strip(s)[1..]);
  }

  // ---- Entries ----

  predicate KeyChar(c: char) {
    'a' <= c <= 'z' || Digit(c) || c == '_'
  }

  /** A lower-case letter, then letters, digits and underscores. */
  predicate KeyForm(k: string) {
    k != "" && 'a' <= k[0] <= 'z' && forall i :: 0 <= i < |k| ==> KeyChar(k[i])
  }

  datatype Line = Skip | Bad | Entry(key: string, value: Scalar)

  function ReadLine(line: string): Line {
    var stripped := Strip(line);
    if stripped == "" || stripped[0] == '#' then Skip
    else if Space(line[0]) || ':' !in line then Bad
    else
      var i := IndexOf(line, ':');
      assert i < |line| by { var j :| 0 <= j < |line| && line[j] == ':'; }
      var key, value := Strip(line[..i]), ParseScalar(line[i + 1..]);
      if KeyForm(key) && value.Some? then Entry(key, value.value) else Bad
  }

  function Extend(values: Option<Values>, line: Line): Option<Values> {
    if values.None? || line.Bad? then None
    else if line.Skip? then values
    else if line.key in values.value then None
    else Some(values.value[line.key := line.value])
  }

  function Fields(lines: seq<Line>): Option<Values> {
    if lines == [] then Some(map[]) else Extend(Fields(lines[..|lines| - 1]), lines[|lines| - 1])
  }

  function ReadLines(lines: seq<string>): seq<Line> {
    seq(|lines|, i requires 0 <= i < |lines| => ReadLine(lines[i]))
  }

  lemma KeyIsStripped(k: string)
    requires KeyForm(k)
    ensures Strip(k) == k && ':' !in k
  {
    assert KeyChar(k[|k| - 1]) && KeyChar(k[0]);
  }

  /** A line that starts with a key and a colon is read at that colon. */
  lemma KeyedLine(k: string, tail: string)
    requires KeyForm(k)
    ensures var line := k + ":" + tail;
      && Strip(line) != "---"
      && ReadLine(line) == match ParseScalar(tail) { case Some(v) => Entry(k, v) case None => Bad }
  {
    var line := k + ":" + tail;
    KeyIsStripped(k);
    StripHead(line);
    assert line[|k|] == ':';
    assert forall j :: 0 <= j < |k| ==> line[j] == k[j] && KeyChar(k[j]);
    assert IndexOf(line, ':') == |k|;
    assert line[..|k|] == k && line[|k| + 1..] == tail;
  }

  // ---- Documents ----

  function Mark(lines: seq<string>, i: nat): (end: nat)
    requires i <= |lines|
    ensures i <= end <= |lines|
    ensures forall j :: i <= j < end ==> Strip(lines[j]) != "---"
    ensures end < |lines| ==> Strip(lines[end]) == "---"
    decreases |lines| - i
  {
    if i == |lines| || Strip(lines[i]) == "---" then i else Mark(lines, i + 1)
  }

  function ParseLines(lines: seq<string>): Option<Document> {
    if lines == [] || Strip(lines[0]) != "---" then None
    else
      var end := Mark(lines, 1);
      if end == |lines| then None
      else
        match Fields(ReadLines(lines[1..end]))
        case None => None
        case Some(values) => Some(Document(values, Concat(lines[end + 1..])))
  }

  function ParseDocument(text: string): Option<Document> {
    ParseLines(Lines(text))
  }

  lemma {:induction false} FieldsFail(lines: seq<Line>, n: nat)
    requires n <= |lines| && Fields(lines[..n]).None?
    ensures Fields(lines).None?
    decreases |lines|
  {
    if n < |lines| {
      var prefix := lines[..|lines| - 1];
      assert prefix[..n] == lines[..n];
      FieldsFail(prefix, n);
    } else {
      assert lines[..n] == lines;
    }
  }

  method FindMark(lines: seq<string>) returns (end: nat)
    requires lines != []
    ensures end == Mark(lines, 1)
  {
    end := 1;
    while end < |lines| && Strip(lines[end]) != "---"
      invariant 1 <= end <= |lines|
      invariant forall j :: 1 <= j < end ==> Strip(lines[j]) != "---"
    {
      end := end + 1;
    }
  }

  /** The loop over the entries: it stops at the first line that is bad or repeats a key. */
  method Collect(lines: seq<string>) returns (r: Option<Values>)
    ensures r == Fields(ReadLines(lines))
  {
    var values: Values := map[];
    var i := 0;
    ghost var read := ReadLines(lines);
    while i < |lines|
      invariant 0 <= i <= |lines|
      invariant Fields(read[..i]) == Some(values)
    {
      var line := ReadLine(lines[i]);
      assert read[i] == line && read[..i + 1][..i] == read[..i];
      if line.Bad? || (line.Entry? && line.key in values) {
        FieldsFail(read, i + 1);
        return None;
      }
      if line.Entry? {
        values := values[line.key := line.value];
      }
      i := i + 1;
    }
    assert read[..i] == read;
    return Some(values);
  }

  method Parse(text: string) returns (r: Option<Document>)
    ensures r == ParseDocument(text)
  {
    var lines := Lines(text);
    if lines == [] || Strip(lines[0]) != "---" {
      return None;
    }
    var end := FindMark(lines);
    if end == |lines| {
      return None;
    }
    var values := Collect(lines[1..end]);
    r := if values.None? then None else Some(Document(values.value, Concat(lines[end + 1..])));
  }

  // ---- Printing ----

  const ORDER: seq<string> := [
    "schema_version", "event_id", "conversation_id", "sequence", "recorded_at", "finalized_at", "topic", "agent", "role",
    "status", "repo_head", "repo_branch", "repo_state_sha256", "evidence_scope", "supersedes_event_id",
    "project_state_changed", "research_trace_included", "command_inventory_included"]

  ghost predicate Least(k: string, s: set<string>) {
    k in s && forall o :: o in s && o != k ==> Before(k, o)
  }

  lemma {:induction false} LeastExists(s: set<string>) returns (k: string)
    requires s != {}
    ensures Least(k, s)
    decreases |s|
  {
    k :| k in s;
    if s != {k} {
      var r := LeastExists(s - {k});
      BeforeTrichotomy(k, r);
      forall o | o in s && o != k && Before(k, r) ensures Before(k, o) {
        if o != r {
          BeforeTransitive(k, r, o);
        }
      }
      if !Before(k, r) {
        k := r;
      }
    }
  }

  ghost function SortedKeys(s: set<string>): (keys: seq<string>)
    ensures forall k :: k in keys <==> k in s
    ensures forall i, j :: 0 <= i < j < |keys| ==> Before(keys[i], keys[j])
    decreases |s|
  {
    if s == {} then []
    else
      assert exists k :: Least(k, s) by { var k := LeastExists(s); }
      var k :| Least(k, s);
      [k] + SortedKeys(s - {k})
  }

  function Known(order: seq<string>, s: set<string>): (keys: seq<string>)
    ensures forall k :: k in keys <==> k in order && k in s
  {
    if order == [] then [] else (if order[0] in s then [order[0]] else []) + Known(order[1..], s)
  }

  /** The known keys first, in their own order, and the others after them, sorted. */
  ghost function Keys(m: Values): seq<string> {
    Known(ORDER, m.Keys) + SortedKeys(m.Keys - set k | k in ORDER)
  }

  ghost predicate Distinct(keys: seq<string>) {
    forall i, j :: 0 <= i < j < |keys| ==> keys[i] != keys[j]
  }

  lemma {:induction false} KnownDistinct(order: seq<string>, s: set<string>)
    requires Distinct(order)
    ensures Distinct(Known(order, s))
    decreases |order|
  {
    if order != [] {
      KnownDistinct(order[1..], s);
      assert order[0] !in order[1..];
    }
  }

  lemma OrderDistinct()
    ensures Distinct(ORDER)
  {
    assert forall i, j :: 0 <= i < j < |ORDER| ==> |ORDER[i]| != |ORDER[j]| || ORDER[i][2] != ORDER[j][2];
  }

  lemma DistinctConcat(a: seq<string>, b: seq<string>)
    requires Distinct(a) && Distinct(b) && forall k :: k in a ==> k !in b
    ensures Distinct(a + b)
  {
    forall i, j | 0 <= i < j < |a + b| ensures (a + b)[i] != (a + b)[j] {
      if i < |a| <= j {
        assert a[i] in a && b[j - |a|] in b;
      }
    }
  }

  lemma SortedDistinct(keys: seq<string>)
    requires forall i, j :: 0 <= i < j < |keys| ==> Before(keys[i], keys[j])
    ensures Distinct(keys)
  {
    forall i, j | 0 <= i < j < |keys| ensures keys[i] != keys[j] {
      BeforeTrichotomy(keys[i], keys[j]);
    }
  }

  lemma KeysEnumerate(m: Values)
    ensures Distinct(Keys(m)) && forall k :: k in Keys(m) <==> k in m
  {
    var order := ORDER;
    var others := SortedKeys(m.Keys - set k | k in order);
    OrderDistinct();
    KnownDistinct(order, m.Keys);
    SortedDistinct(others);
    DistinctConcat(Known(order, m.Keys), others);
  }

  function PrintEntry(k: string, v: Scalar): string {
    k + ":" + (" " + PrintScalar(v))
  }

  function PrintEntries(keys: seq<string>, m: Values): seq<string>
    requires forall k :: k in keys ==> k in m
  {
    seq(|keys|, i requires 0 <= i < |keys| => PrintEntry(keys[i], m[keys[i]]))
  }

  function StripNewlines(s: string): string {
    if s != "" && s[0] == '\n' then StripNewlines(s[1..]) else s
  }

  ghost function RenderDocument(m: Values, body: string): string {
    KeysEnumerate(m);
    Join(["---"] + PrintEntries(Keys(m), m) + ["---"], '\n') + "\n" + StripNewlines(body)
  }

  function Ended(lines: seq<string>): seq<string> {
    seq(|lines|, i requires 0 <= i < |lines| => lines[i] + "\n")
  }

  lemma {:induction false} JoinIsConcat(lines: seq<string>)
    requires lines != []
    ensures Join(lines, '\n') + "\n" == Concat(Ended(lines))
    decreases |lines|
  {
    var e := Ended(lines);
    if |lines| == 1 {
      assert e[1..] == [];
      assert Concat(e) == e[0];
    } else {
      JoinIsConcat(lines[1..]);
      assert e[1..] == Ended(lines[1..]);
      assert Join(lines, '\n') + "\n" == lines[0] + "\n" + (Join(lines[1..], '\n') + "\n");
    }
  }

  // ---- Reading back what was printed ----

  /** The values of some keys. */
  function Restricted(m: Values, keys: seq<string>): Values
    requires forall k :: k in keys ==> k in m
  {
    map k | k in keys :: m[k]
  }

  lemma UnbrokenEntry(k: string, p: string)
    requires KeyForm(k) && Unbroken(p)
    ensures Unbroken(k + ":" + p)
  {
    var s := k + ":" + p;
    assert forall i :: 0 <= i < |k| ==> KeyChar(k[i]);
    forall i | 0 <= i < |s| ensures !Boundary(s[i]) {
      assert s[i] == if i < |k| then k[i] else if i == |k| then ':' else p[i - |k| - 1];
    }
  }

  lemma EntryRoundTrip(k: string, v: Scalar)
    requires KeyForm(k) && Clean(v)
    ensures var line := PrintEntry(k, v) + "\n"; Plain(line) && Strip(line) != "---" && ReadLine(line) == Entry(k, v)
  {
    ScalarRoundTrip(v, '\n');
    var p := " " + PrintScalar(v);
    var line := k + ":" + p + "\n";
    UnbrokenEntry(k, p);
    assert line[..|line| - 1] == k + ":" + p;
    assert line == k + ":" + (p + "\n");
    KeyedLine(k, p + "\n");
  }

  lemma EntriesRead(keys: seq<string>, m: Values)
    requires forall k :: k in keys ==> k in m && KeyForm(k) && Clean(m[k])
    ensures forall l :: l in Ended(PrintEntries(keys, m)) ==> Plain(l) && Strip(l) != "---"
    ensures ReadLines(Ended(PrintEntries(keys, m))) == EntriesOf(keys, m)
  {
    var lines := Ended(PrintEntries(keys, m));
    forall i | 0 <= i < |lines| ensures Plain(lines[i]) && Strip(lines[i]) != "---" && ReadLine(lines[i]) == Entry(keys[i], m[keys[i]]) {
      assert keys[i] in keys;
      EntryRoundTrip(keys[i], m[keys[i]]);
    }
  }

  function EntriesOf(keys: seq<string>, m: Values): seq<Line>
    requires forall k :: k in keys ==> k in m
  {
    seq(|keys|, i requires 0 <= i < |keys| => Entry(keys[i], m[keys[i]]))
  }

  lemma {:induction false} FieldsOfEntries(keys: seq<string>, m: Values)
    requires Distinct(keys) && forall k :: k in keys ==> k in m
    ensures Fields(EntriesOf(keys, m)) == Some(Restricted(m, keys))
    decreases |keys|
  {
    if keys != [] {
      var n := |keys| - 1;
      var rest := keys[..n];
      FieldsOfEntries(rest, m);
      assert EntriesOf(keys, m)[..n] == EntriesOf(rest, m);
      assert keys[n] in keys && keys[n] !in rest;
      assert Restricted(m, keys) == Restricted(m, rest)[keys[n] := m[keys[n]]];
    }
  }

  lemma MarkerLine()
    ensures Plain("---\n") && Strip("---\n") == "---"
  {
    assert "---\n"[..3] == "---";
    assert StripRight("---") == "---";
  }

  lemma FrameJoined(entries: seq<string>)
    ensures Join(["---"] + entries + ["---"], '\n') + "\n" == Concat(["---\n"] + Ended(entries) + ["---\n"])
  {
    var lines := ["---"] + entries + ["---"];
    JoinIsConcat(lines);
    assert "---" + "\n" == "---\n";
    assert Ended(lines) == ["---\n"] + Ended(entries) + ["---\n"];
  }

  lemma RenderedText(m: Values, body: string)
    ensures (forall k :: k in Keys(m) ==> k in m)
      && RenderDocument(m, body) == Concat(["---\n"] + Ended(PrintEntries(Keys(m), m)) + ["---\n"]) + StripNewlines(body)
  {
    KeysEnumerate(m);
    FrameJoined(PrintEntries(Keys(m), m));
  }

  lemma FramedLines(entries: seq<string>, more: seq<string>)
    requires forall l :: l in entries ==> Strip(l) != "---"
    ensures ParseLines(["---\n"] + entries + ["---\n"] + more)
      == match Fields(ReadLines(entries)) { case None => None case Some(values) => Some(Document(values, Concat(more))) }
  {
    MarkerLine();
    var lines, end := ["---\n"] + entries + ["---\n"] + more, |entries| + 1;
    assert forall j :: 1 <= j < end ==> lines[j] == entries[j - 1] && entries[j - 1] in entries;
    assert lines[end] == "---\n";
    assert Mark(lines, 1) == end;
    assert lines[1..end] == entries && lines[end + 1..] == more;
  }

  /** What a document with these lines between its markers yields. */
  lemma Framed(entries: seq<string>, tail: string)
    requires forall l :: l in entries ==> Plain(l) && Strip(l) != "---"
    ensures ParseDocument(Concat(["---\n"] + entries + ["---\n"]) + tail)
      == match Fields(ReadLines(entries)) { case None => None case Some(values) => Some(Document(values, tail)) }
  {
    MarkerLine();
    LinesOfPlain(["---\n"] + entries + ["---\n"], tail);
    FramedLines(entries, Lines(tail));
    ConcatLines(tail);
  }

  lemma CleanRoundTrip(m: Values, body: string)
    requires forall k :: k in m ==> KeyForm(k) && Clean(m[k])
    ensures ParseDocument(RenderDocument(m, body)) == Some(Document(m, StripNewlines(body)))
  {
    RenderedText(m, body);
    KeysEnumerate(m);
    EntriesRead(Keys(m), m);
    Framed(Ended(PrintEntries(Keys(m), m)), StripNewlines(body));
    FieldsOfEntries(Keys(m), m);
    assert Restricted(m, Keys(m)) == m;
  }

  /** A text value with a boundary that is not escaped prints up to it, and then goes on. */
  lemma DirtyValue(v: Scalar) returns (clean: string, c: char, rest: string)
    requires !Clean(v)
    ensures CleanText(clean) && Unescaped(c) && " " + PrintScalar(v) == (" \"" + Escaped(clean)) + [c] + rest
  {
    var after;
    clean, c, after := DirtySplits(v.words);
    rest := Escaped(after) + "\"";
  }

  lemma CutLine(k: string, p: string, c: char)
    requires KeyForm(k) && Unbroken(p) && Unescaped(c) && ParseScalar(p + [c]) == None
    ensures var line := k + ":" + p + [c];
      && Strip(line) != "---" && ReadLine(line) == Bad
      && forall more :: Lines(line + more) == [line] + Lines(more)
  {
    UnbrokenEntry(k, p);
    var line := k + ":" + p + [c];
    assert line == k + ":" + (p + [c]);
    KeyedLine(k, p + [c]);
    forall more ensures Lines(line + more) == [line] + Lines(more) {
      LinesStart(k + ":" + p, c, more);
    }
  }

  /** Such a value cuts its line where it cannot be read. */
  lemma DirtyEntry(k: string, v: Scalar) returns (line: string, rest: string)
    requires KeyForm(k) && !Clean(v)
    ensures Strip(line) != "---" && ReadLine(line) == Bad && PrintEntry(k, v) == line + rest
    ensures forall more :: Lines(line + more) == [line] + Lines(more)
  {
    var clean, c, after := DirtyValue(v);
    var p := " \"" + Escaped(clean);
    EscapedPlain(clean);
    CutScalarRefused(clean, c);
    CutLine(k, p, c);
    Regroup(k, p, c, after);
    line, rest := k + ":" + p + [c], after;
  }

  lemma Regroup(k: string, p: string, c: char, rest: string)
    ensures k + ":" + (p + [c] + rest) == (k + ":" + p + [c]) + rest
  {
  }

  lemma {:induction false} FieldsBad(lines: seq<Line>, i: nat)
    requires i < |lines| && lines[i] == Bad
    ensures Fields(lines).None?
  {
    assert lines[..i + 1][..i] == lines[..i];
    FieldsFail(lines, i + 1);
  }

  lemma {:induction false} ConcatSplits(a: seq<string>, b: seq<string>)
    ensures Concat(a + b) == Concat(a) + Concat(b)
    decreases |a|
  {
    if a == [] {
      assert a + b == b;
    } else {
      ConcatSplits(a[1..], b);
      assert (a + b)[1..] == a[1..] + b;
    }
  }

  lemma FirstDirty(keys: seq<string>, m: Values) returns (i: nat)
    requires (forall k :: k in keys ==> k in m) && exists k :: k in keys && !Clean(m[k])
    ensures i < |keys| && !Clean(m[keys[i]]) && forall j :: 0 <= j < i ==> Clean(m[keys[j]])
  {
    i := 0;
    while Clean(m[keys[i]])
      invariant i < |keys| && forall j :: 0 <= j < i ==> Clean(m[keys[j]])
      decreases |keys| - i
    {
      if i + 1 == |keys| {
        var k :| k in keys && !Clean(m[k]);
        var j :| 0 <= j < |keys| && keys[j] == k;
        assert false;
      }
      i := i + 1;
    }
  }

  lemma BadLineRefused(entries: seq<string>, line: string, more: seq<string>)
    requires forall l :: l in entries ==> Strip(l) != "---"
    requires Strip(line) != "---" && ReadLine(line) == Bad
    ensures ParseLines(["---\n"] + entries + ([line] + more)) == None
  {
    var lines, n := ["---\n"] + entries + ([line] + more), |entries|;
    var end := Mark(lines, 1);
    assert lines[n + 1] == line;
    assert forall j :: 1 <= j <= n ==> lines[j] == entries[j - 1] && entries[j - 1] in entries;
    assert end > n + 1;
    if end < |lines| {
      FieldsBad(ReadLines(lines[1..end]), n);
    }
  }

  /** A bad line before the closing marker refuses the document, wherever that marker is. */
  lemma BadLineRefuses(entries: seq<string>, line: string, more: string)
    requires forall l :: l in entries ==> Plain(l) && Strip(l) != "---"
    requires Strip(line) != "---" && ReadLine(line) == Bad && Lines(line + more) == [line] + Lines(more)
    ensures ParseDocument(Concat(["---\n"] + entries) + (line + more)) == None
  {
    MarkerLine();
    LinesOfPlain(["---\n"] + entries, line + more);
    BadLineRefused(entries, line, Lines(more));
  }

  lemma DirtyText(head: seq<string>, entry: string, others: seq<string>, tail: string)
    ensures Concat(["---\n"] + (head + [entry + "\n"] + others) + ["---\n"]) + tail
      == Concat(["---\n"] + head) + (entry + ("\n" + (Concat(others + ["---\n"]) + tail)))
  {
    var rest := [entry + "\n"] + (others + ["---\n"]);
    assert ["---\n"] + (head + [entry + "\n"] + others) + ["---\n"] == (["---\n"] + head) + rest;
    ConcatSplits(["---\n"] + head, rest);
    assert rest[1..] == others + ["---\n"];
  }

  lemma EntriesSplit(keys: seq<string>, m: Values, n: nat)
    requires n < |keys| && forall k :: k in keys ==> k in m
    ensures var entries := Ended(PrintEntries(keys, m));
      entries == Ended(PrintEntries(keys[..n], m)) + [PrintEntry(keys[n], m[keys[n]]) + "\n"] + entries[n + 1..]
  {
  }

  lemma DirtyFramed(head: seq<string>, line: string, rest: string, others: seq<string>, tail: string)
    requires forall l :: l in head ==> Plain(l) && Strip(l) != "---"
    requires Strip(line) != "---" && ReadLine(line) == Bad && forall more :: Lines(line + more) == [line] + Lines(more)
    ensures ParseDocument(Concat(["---\n"] + (head + [line + rest + "\n"] + others) + ["---\n"]) + tail) == None
  {
    var more := "\n" + (Concat(others + ["---\n"]) + tail);
    BadLineRefuses(head, line, rest + more);
    DirtyText(head, line + rest, others, tail);
    assert line + rest + more == line + (rest + more);
  }

  lemma DirtyRefused(m: Values, body: string)
    requires (forall k :: k in m ==> KeyForm(k)) && exists k :: k in m && !Clean(m[k])
    ensures ParseDocument(RenderDocument(m, body)) == None
  {
    RenderedText(m, body);
    KeysEnumerate(m);
    var keys := Keys(m);
    var n := FirstDirty(keys, m);
    assert keys[n] in keys;
    EntriesRead(keys[..n], m);
    var line, rest := DirtyEntry(keys[n], m[keys[n]]);
    EntriesSplit(keys, m, n);
    DirtyFramed(Ended(PrintEntries(keys[..n], m)), line, rest, Ended(PrintEntries(keys, m))[n + 1..], StripNewlines(body));
  }

  /**
   Printed values and a body are read back, leading newlines dropped, exactly if no text value contains a
   line boundary that quoting does not escape; otherwise the document is refused.
   */
  lemma RoundTripExactly(m: Values, body: string)
    requires forall k :: k in m ==> KeyForm(k)
    ensures ParseDocument(RenderDocument(m, body))
      == if forall k :: k in m ==> Clean(m[k]) then Some(Document(m, StripNewlines(body))) else None
  {
    if forall k :: k in m ==> Clean(m[k]) {
      CleanRoundTrip(m, body);
    } else {
      DirtyRefused(m, body);
    }
  }

  lemma OneDirty(k: string, words: string, body: string)
    requires KeyForm(k) && !CleanText(words)
    ensures ParseDocument(RenderDocument(map[k := Words(words)], body)) == None
  {
    var m: Values := map[k := Words(words)];
    assert k in m && !Clean(m[k]);
    RoundTripExactly(m, body);
  }

  const SEPARATED := "a\U{2028}b"

  /** A topic with a line separator in it is printed, and then cannot be read. */
  lemma SeparatorIsLost(body: string)
    ensures ParseDocument(RenderDocument(map["topic" := Words(SEPARATED)], body)) == None
  {
    var key, words := "topic", SEPARATED;
    assert KeyForm(key);
    assert Unescaped(words[1]);
    OneDirty(key, words, body);
  }

  lemma {:induction false} FieldsKeyed(lines: seq<Line>)
    requires Fields(lines).Some? && forall l :: l in lines && l.Entry? ==> KeyForm(l.key)
    ensures forall k :: k in Fields(lines).value ==> KeyForm(k)
    decreases |lines|
  {
    if lines != [] {
      FieldsKeyed(lines[..|lines| - 1]);
    }
  }

  /** Whatever was read can be printed and read again, with the same restriction. */
  lemma ReprintExactly(text: string)
    requires ParseDocument(text).Some?
    ensures var d := ParseDocument(text).value;
      ParseDocument(RenderDocument(d.values, d.body))
        == if forall k :: k in d.values ==> Clean(d.values[k]) then Some(Document(d.values, StripNewlines(d.body))) else None
  {
    var lines := Lines(text);
    FieldsKeyed(ReadLines(lines[1..Mark(lines, 1)]));
    var d := ParseDocument(text).value;
    RoundTripExactly(d.values, d.body);
  }
}
