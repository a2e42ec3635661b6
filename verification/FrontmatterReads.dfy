/**
 What the frontmatter reader makes of every text, stated without its own steps: what stripping leaves, which
 characters a quoted value stands for, what each line says, and which lines make a document.
 */
module FrontmatterReads {
  import opened Options
  import opened Text
  import opened Ordering
  import opened Frontmatter

  // ---- Stripping ----

  predicate Blank(s: string) {
    forall i :: 0 <= i < |s| ==> Space(s[i])
  }

  /** Nothing, or a text with no white space at either end. */
  predicate Tight(t: string) {
    t == "" || (!Space(t[0]) && !Space(t[|t| - 1]))
  }

  /** What is left of a text without the white space around it. */
  ghost predicate Trimmed(s: string, t: string) {
    Tight(t) && exists a: nat :: a + |t| <= |s| && Blank(s[..a]) && s[a..a + |t|] == t && Blank(s[a + |t|..])
  }

  lemma {:induction false} LeftStripped(s: string) returns (a: nat)
    ensures a <= |s| && Blank(s[..a]) && StripLeft(s) == s[a..] && (a < |s| ==> !Space(s[a]))
    decreases |s|
  {
    if s != "" && Space(s[0]) {
      var b := LeftStripped(s[1..]);
      a := b + 1;
      assert s[..a] == [s[0]] + s[1..][..b];
      assert s[1..][b..] == s[a..];
    } else {
      a := 0;
    }
  }

  lemma {:induction false} RightStripped(s: string) returns (n: nat)
    ensures n <= |s| && StripRight(s) == s[..n] && Blank(s[n..]) && (n > 0 ==> !Space(s[n - 1]))
    decreases |s|
  {
    if s != "" && Space(s[|s| - 1]) {
      var m := |s| - 1;
      n := RightStripped(s[..m]);
      assert s[..m][..n] == s[..n];
      assert s[n..] == s[..m][n..] + [s[m]];
    } else {
      n := |s|;
    }
  }

  lemma StripTrims(s: string)
    ensures Trimmed(s, Strip(s))
  {
    var a := LeftStripped(s);
    var n := RightStripped(s[a..]);
    var t := Strip(s);
    assert t == s[a..][..n] == s[a..a + n];
    assert s[a..][n..] == s[a + n..];
    if t == "" {
      assert n == 0;
    } else {
      assert t[0] == s[a] && t[|t| - 1] == s[a..][n - 1];
    }
  }

  lemma TrimmedOnce(s: string, t: string, u: string)
    requires Trimmed(s, t) && Trimmed(s, u)
    ensures t == u
  {
    var a: nat :| a + |t| <= |s| && Blank(s[..a]) && s[a..a + |t|] == t && Blank(s[a + |t|..]);
    var b: nat :| b + |u| <= |s| && Blank(s[..b]) && s[b..b + |u|] == u && Blank(s[b + |u|..]);
    SamePlace(s, a, t, b, u);
  }

  lemma SamePlace(s: string, a: nat, t: string, b: nat, u: string)
    requires Tight(t) && a + |t| <= |s| && Blank(s[..a]) && s[a..a + |t|] == t && Blank(s[a + |t|..])
    requires Tight(u) && b + |u| <= |s| && Blank(s[..b]) && s[b..b + |u|] == u && Blank(s[b + |u|..])
    ensures t == u
  {
    if t != "" {
      EndsInside(s, a, t, b, u);
    }
    if u != "" {
      EndsInside(s, b, u, a, t);
    }
  }

  lemma EndsInside(s: string, a: nat, t: string, b: nat, u: string)
    requires t != "" && Tight(t) && a + |t| <= |s| && s[a..a + |t|] == t
    requires b + |u| <= |s| && Blank(s[..b]) && Blank(s[b + |u|..])
    ensures b <= a && a + |t| <= b + |u|
  {
    assert t[0] == s[a] && t[|t| - 1] == s[a + |t| - 1];
  }

  /** Stripping takes away exactly the white space around a text. */
  lemma StripsExactly(s: string, t: string)
    ensures t == Strip(s) <==> Trimmed(s, t)
  {
    StripTrims(s);
    if Trimmed(s, t) {
      TrimmedOnce(s, t, Strip(s));
    }
  }

  // ---- Quoted values ----

  /** Four hexadecimal digits and their number. */
  predicate Hexadecimal(h: string, n: nat) {
    |h| == 4 && FourHex(h) == Some(n)
  }

  /** The letters that stand for a character after a backslash. */
  predicate Letter(x: char, c: char) {
    (x, c) in {('"', '"'), ('\\', '\\'), ('/', '/'), ('n', '\n'), ('r', '\r'), ('t', '\t'), ('b', '\U{8}'), ('f', '\U{c}')}
  }

  /** One character as it may be written between quotes: itself, escaped by a letter, by its number, or as a pair. */
  predicate Piece(raw: string, c: char) {
    || (|raw| == 1 && raw[0] == c && c >= ' ' && c != '"' && c != '\\')
    || (|raw| == 2 && raw[0] == '\\' && Letter(raw[1], c))
    || (|raw| == 6 && raw[0] == '\\' && raw[1] == 'u' && Hexadecimal(raw[2..], c as int))
    || (|raw| == 12 && raw[0] == '\\' && raw[1] == 'u' && raw[6] == '\\' && raw[7] == 'u' && Paired(raw[2..6], raw[8..], c))
  }

  /** A high half, a low half, and the character beyond the first plane that they stand for. */
  predicate Paired(high: string, low: string, c: char) {
    && c as int >= 0x10000
    && Hexadecimal(high, 0xD800 + (c as int - 0x10000) / 0x400) && Hexadecimal(low, 0xDC00 + (c as int - 0x10000) % 0x400)
  }

  ghost predicate Spells(raws: seq<string>, x: string) {
    |raws| == |x| && forall i :: 0 <= i < |x| ==> Piece(raws[i], x[i])
  }

  lemma HexPrefix(h: string, rest: string)
    requires |h| == 4
    ensures FourHex(h + rest) == FourHex(h)
  {
  }

  /** Whatever is spelled out first is read first. */
  lemma PieceRead(raw: string, c: char, rest: string)
    requires Piece(raw, c)
    ensures Unquote(raw + rest) == Prefixed(c, Unquote(rest))
  {
    var s := raw + rest;
    if |raw| == 1 {
      assert s[1..] == rest;
    } else if |raw| == 2 {
      assert s[2..] == rest;
    } else if |raw| == 6 {
      HexRead(raw, c, rest);
    } else {
      PairRead(raw, c, rest);
    }
  }

  lemma HexRead(raw: string, c: char, rest: string)
    requires |raw| == 6 && Piece(raw, c)
    ensures Unquote(raw + rest) == Prefixed(c, Unquote(rest))
  {
    UnquoteFour(raw[2..], rest);
    assert raw == ['\\', 'u'] + raw[2..];
  }

  lemma PairRead(raw: string, c: char, rest: string)
    requires |raw| == 12 && Piece(raw, c)
    ensures Unquote(raw + rest) == Prefixed(c, Unquote(rest))
  {
    var s := raw + rest;
    assert s[2..] == raw[2..6] + s[6..];
    HexPrefix(raw[2..6], s[6..]);
    assert s[6..][2..] == raw[8..] + rest;
    HexPrefix(raw[8..], rest);
    assert s[12..] == rest;
  }

  lemma ConcatQuoted(raw: string, rest: seq<string>)
    ensures Concat([raw] + rest) + "\"" == raw + (Concat(rest) + "\"")
  {
    assert ([raw] + rest)[1..] == rest;
  }

  lemma {:induction false} SpelledRead(raws: seq<string>, x: string)
    requires Spells(raws, x)
    ensures Unquote(Concat(raws) + "\"") == Some(x)
    decreases |x|
  {
    if x == "" {
      assert Concat(raws) + "\"" == "\"";
    } else {
      assert Spells(raws[1..], x[1..]);
      SpelledRead(raws[1..], x[1..]);
      PieceRead(raws[0], x[0], Concat(raws[1..]) + "\"");
      ConcatQuoted(raws[0], raws[1..]);
      assert raws == [raws[0]] + raws[1..];
      assert x == [x[0]] + x[1..];
    }
  }

  /** The first character that is read was spelled out at the start. */
  lemma FirstPiece(s: string) returns (n: nat)
    requires s != "" && s[0] != '"' && Unquote(s).Some?
    ensures 1 <= n <= |s| && Unquote(s).value != "" && Piece(s[..n], Unquote(s).value[0])
    ensures Unquote(s[n..]) == Some(Unquote(s).value[1..])
  {
    if s[0] != '\\' {
      n := 1;
    } else if s[1] != 'u' {
      n := 2;
    } else {
      n := FirstEscape(s);
    }
  }

  lemma FirstEscape(s: string) returns (n: nat)
    requires |s| >= 2 && s[0] == '\\' && s[1] == 'u' && UnquoteHex(s).Some?
    ensures 1 <= n <= |s| && UnquoteHex(s).value != "" && Piece(s[..n], UnquoteHex(s).value[0])
    ensures Unquote(s[n..]) == Some(UnquoteHex(s).value[1..])
  {
    HexPrefix(s[2..6], s[6..]);
    assert s[2..] == s[2..6] + s[6..];
    if Scalar16(FourHex(s[2..]).value) {
      n := 6;
      assert s[..6][2..] == s[2..6];
    } else {
      n := 12;
      FirstPair(s);
    }
  }

  lemma Halves(high: nat, low: nat)
    requires 0xD800 <= high < 0xDC00 <= low < 0xE000
    ensures var n := 0x10000 + 0x400 * (high - 0xD800) + (low - 0xDC00);
      0x10000 <= n < 0x110000 && 0xD800 + (n - 0x10000) / 0x400 == high && 0xDC00 + (n - 0x10000) % 0x400 == low
  {
  }

  /** A pair is read from twelve characters. */
  lemma PairShape(s: string, high: nat, low: nat)
    requires |s| >= 6 && s[0] == '\\' && s[1] == 'u' && UnquoteHex(s).Some? && !Scalar16(high) && FourHex(s[2..]) == Some(high)
    requires LowHalf(s[6..]) == Some(low)
    ensures 12 <= |s| && s[6] == '\\' && s[7] == 'u' && 0xD800 <= high < 0xDC00 <= low < 0xE000
    ensures UnquoteHex(s) == Prefixed((0x10000 + 0x400 * (high - 0xD800) + (low - 0xDC00)) as char, Unquote(s[12..]))
    ensures FourHex(s[8..]) == Some(low)
  {
    assert s[6..][2..] == s[8..];
  }

  lemma PairDigits(s: string)
    requires |s| >= 12
    ensures s[..12][2..6] == s[2..6] && FourHex(s[..12][8..12]) == FourHex(s[8..])
  {
    HexPrefix(s[8..12], s[12..]);
    assert s[8..] == s[8..12] + s[12..];
    assert s[..12][8..12] == s[8..12];
  }

  lemma FirstPair(s: string)
    requires |s| >= 6 && s[0] == '\\' && s[1] == 'u' && UnquoteHex(s).Some?
    requires FourHex(s[2..]) == FourHex(s[2..6]) && !Scalar16(FourHex(s[2..]).value)
    ensures 12 <= |s| && UnquoteHex(s).value != "" && Piece(s[..12], UnquoteHex(s).value[0])
    ensures Unquote(s[12..]) == Some(UnquoteHex(s).value[1..])
  {
    var high, low := FourHex(s[2..]).value, LowHalf(s[6..]).value;
    PairShape(s, high, low);
    PairDigits(s);
    Halves(high, low);
    PairSpelled(s[..12], high, low, (0x10000 + 0x400 * (high - 0xD800) + (low - 0xDC00)) as char);
  }

  lemma PairSpelled(raw: string, high: nat, low: nat, c: char)
    requires |raw| == 12 && raw[0] == '\\' && raw[1] == 'u' && raw[6] == '\\' && raw[7] == 'u'
    requires Hexadecimal(raw[2..6], high) && Hexadecimal(raw[8..12], low)
    requires c as int >= 0x10000 && high == 0xD800 + (c as int - 0x10000) / 0x400 && low == 0xDC00 + (c as int - 0x10000) % 0x400
    ensures Piece(raw, c)
  {
    assert raw[8..12] == raw[8..];
  }

  lemma {:induction false} ReadSpelled(s: string) returns (raws: seq<string>)
    requires Unquote(s).Some?
    ensures Spells(raws, Unquote(s).value) && s == Concat(raws) + "\""
    decreases |s|
  {
    if s[0] == '"' {
      raws := [];
      assert s == "\"";
    } else {
      var n := FirstPiece(s);
      var rest := ReadSpelled(s[n..]);
      raws := [s[..n]] + rest;
      ConcatQuoted(s[..n], rest);
      assert s == s[..n] + s[n..];
    }
  }

  /** A quoted value stands for a text exactly if it spells it, character by character, before its closing quote. */
  lemma UnquotesExactly(s: string, x: string)
    ensures Unquote(s) == Some(x) <==> exists raws :: Spells(raws, x) && s == Concat(raws) + "\""
  {
    if Unquote(s) == Some(x) {
      var raws := ReadSpelled(s);
    }
    if exists raws :: Spells(raws, x) && s == Concat(raws) + "\"" {
      var raws :| Spells(raws, x) && s == Concat(raws) + "\"";
      SpelledRead(raws, x);
    }
  }

  // ---- Values ----

  /** An optional minus and then only digits. */
  predicate IntegerText(t: string) {
    Digits(t) || (t != "" && t[0] == '-' && Digits(t[1..]))
  }

  ghost predicate Quoted(t: string, x: string) {
    exists raws :: Spells(raws, x) && t == "\"" + (Concat(raws) + "\"")
  }

  /** What a stripped value stands for: a quoted text, a flag, a number, or itself. */
  ghost predicate Stands(t: string, v: Scalar) {
    if t != "" && t[0] == '"' then v.Words? && Quoted(t, v.words)
    else if |t| >= 2 && t[0] == '\'' && t[|t| - 1] == '\'' then v == Words(t[1..|t| - 1])
    else if t == "true" then v == Flag(true)
    else if t == "false" then v == Flag(false)
    else if IntegerText(t) then v == Number(if t[0] == '-' then 0 - Value(t[1..]) else Value(t))
    else v == Words(t)
  }

  lemma QuotedRead(t: string, x: string)
    requires t != "" && t[0] == '"'
    ensures Unquote(t[1..]) == Some(x) <==> Quoted(t, x)
  {
    UnquotesExactly(t[1..], x);
    forall raws ensures t[1..] == Concat(raws) + "\"" <==> t == "\"" + (Concat(raws) + "\"") {
      assert ("\"" + (Concat(raws) + "\""))[1..] == Concat(raws) + "\"";
      assert t == "\"" + t[1..];
    }
  }

  lemma IntegersRead(t: string)
    ensures ParseInt(t).Some? <==> IntegerText(t)
    ensures IntegerText(t) ==> ParseInt(t) == Some(if t[0] == '-' then 0 - Value(t[1..]) as int else Value(t) as int)
  {
  }

  /** A value is read as exactly what its stripped text stands for; only a badly quoted text stands for nothing. */
  lemma ReadsScalar(text: string, v: Scalar)
    ensures ParseScalar(text) == Some(v) <==> exists t :: Trimmed(text, t) && Stands(t, v)
  {
    var t := Strip(text);
    StripTrims(text);
    IntegersRead(t);
    if t != "" && t[0] == '"' && v.Words? {
      QuotedRead(t, v.words);
    }
    assert ParseScalar(text) == Some(v) <==> Stands(t, v);
    forall u | Trimmed(text, u) ensures u == t {
      TrimmedOnce(text, u, t);
    }
  }

  // ---- Lines ----

  /** Blank, or a comment. */
  ghost predicate Ignored(line: string) {
    exists t :: Trimmed(line, t) && (t == "" || t[0] == '#')
  }

  /** A key at the very start, the first colon, and a value. */
  ghost predicate Assigns(line: string, k: string, v: Scalar) {
    && line != "" && !Space(line[0]) && KeyForm(k)
    && exists i: nat :: i < |line| && line[i] == ':' && ':' !in line[..i] && Trimmed(line[..i], k) && ParseScalar(line[i + 1..]) == Some(v)
  }

  lemma FirstColon(line: string, i: nat)
    requires i < |line| && line[i] == ':' && ':' !in line[..i]
    ensures IndexOf(line, ':') == i
  {
    assert forall j :: 0 <= j < i ==> line[j] in line[..i];
  }

  lemma IgnoresExactly(line: string)
    ensures Ignored(line) <==> Strip(line) == "" || Strip(line)[0] == '#'
  {
    StripTrims(line);
    forall t | Trimmed(line, t) ensures t == Strip(line) {
      TrimmedOnce(line, t, Strip(line));
    }
  }

  lemma AssignsAtColon(line: string, i: nat, k: string, v: Scalar)
    requires i < |line| && line[i] == ':' && ':' !in line[..i]
    ensures Assigns(line, k, v) <==>
            !Space(line[0]) && KeyForm(k) && k == Strip(line[..i]) && ParseScalar(line[i + 1..]) == Some(v)
  {
    StripsExactly(line[..i], k);
    FirstColon(line, i);
    forall j: nat | j < |line| && line[j] == ':' && ':' !in line[..j] ensures j == i {
      FirstColon(line, j);
    }
  }

  /** A line that is not ignored assigns a value to a key, or is bad. */
  lemma ReadsLine(line: string, k: string, v: Scalar)
    ensures ReadLine(line).Skip? <==> Ignored(line)
    ensures ReadLine(line) == Entry(k, v) <==> !Ignored(line) && Assigns(line, k, v)
  {
    IgnoresExactly(line);
    if ':' in line {
      var i := IndexOf(line, ':');
      assert i < |line| by { var j :| 0 <= j < |line| && line[j] == ':'; }
      assert ':' !in line[..i];
      AssignsAtColon(line, i, k, v);
    }
  }

  // ---- Documents ----

  /** No bad line, and no key twice. */
  ghost predicate Proper(lines: seq<Line>) {
    && (forall i :: 0 <= i < |lines| ==> !lines[i].Bad?)
    && (forall i, j :: 0 <= i < j < |lines| && lines[i].Entry? && lines[j].Entry? ==> lines[i].key != lines[j].key)
  }

  /** Each assigned value, and nothing else. */
  ghost predicate Assigned(lines: seq<Line>, m: Values) {
    && (forall i :: 0 <= i < |lines| && lines[i].Entry? ==> lines[i].key in m && m[lines[i].key] == lines[i].value)
    && (forall k :: k in m ==> exists i :: 0 <= i < |lines| && lines[i].Entry? && lines[i].key == k)
  }

  predicate NewKey(lines: seq<Line>, last: Line) {
    last.Entry? ==> forall i :: 0 <= i < |lines| && lines[i].Entry? ==> lines[i].key != last.key
  }

  lemma ProperTail(lines: seq<Line>, last: Line)
    ensures Proper(lines + [last]) <==> Proper(lines) && !last.Bad? && NewKey(lines, last)
  {
    var all := lines + [last];
    assert forall i :: 0 <= i < |lines| ==> all[i] == lines[i];
    assert all[|lines|] == last;
  }

  lemma AssignedTail(lines: seq<Line>, last: Line, m: Values)
    requires Assigned(lines, m) && (last.Entry? ==> last.key !in m) && !last.Bad?
    ensures Assigned(lines + [last], Extend(Some(m), last).value)
  {
    var all, next := lines + [last], Extend(Some(m), last).value;
    assert forall i :: 0 <= i < |lines| ==> all[i] == lines[i];
    forall k | k in next ensures exists i :: 0 <= i < |all| && all[i].Entry? && all[i].key == k {
      if k in m {
        var i :| 0 <= i < |lines| && lines[i].Entry? && lines[i].key == k;
        assert all[i].key == k;
      } else {
        assert all[|lines|].key == k;
      }
    }
  }

  /** Lines are gathered exactly if they are proper, and give exactly what they assign. */
  lemma {:induction false} GathersExactly(lines: seq<Line>)
    ensures Fields(lines).Some? <==> Proper(lines)
    ensures Fields(lines).Some? ==> Assigned(lines, Fields(lines).value)
    decreases |lines|
  {
    if lines != [] {
      var rest, last := lines[..|lines| - 1], lines[|lines| - 1];
      GathersExactly(rest);
      ProperTail(rest, last);
      assert lines == rest + [last];
      if Fields(rest).Some? && !last.Bad? && (last.Entry? ==> last.key !in Fields(rest).value) {
        AssignedTail(rest, last, Fields(rest).value);
      }
    }
  }

  // ---- Lines of a text ----

  /** One line with its end: a boundary at most at its end, or the two characters that end it together. */
  predicate OneLine(l: string) {
    && l != ""
    && (Unbroken(l[..|l| - 1]) || (|l| >= 2 && Unbroken(l[..|l| - 2]) && l[|l| - 2] == '\r' && l[|l| - 1] == '\n'))
  }

  /** The line ends here, whatever comes next. */
  predicate EndsBefore(l: string, next: string)
    requires l != ""
  {
    next != "" ==> Boundary(l[|l| - 1]) && !(l[|l| - 1] == '\r' && next[0] == '\n')
  }

  /** The text cut after each of its line boundaries. */
  ghost predicate Cut(s: string, lines: seq<string>)
    decreases |lines|
  {
    if lines == [] then s == ""
    else OneLine(lines[0]) && lines[0] <= s && EndsBefore(lines[0], s[|lines[0]|..]) && Cut(s[|lines[0]|..], lines[1..])
  }

  lemma {:induction false} FirstLineCuts(s: string)
    requires s != ""
    ensures var n := FirstLine(s); OneLine(s[..n]) && EndsBefore(s[..n], s[n..])
    decreases |s|
  {
    if !(s[0] == '\r' && |s| > 1 && s[1] == '\n') && !Boundary(s[0]) && |s| > 1 {
      var t := s[1..];
      var m := FirstLine(t);
      FirstLineCuts(t);
      LongerLine(s[0], t[..m]);
      assert s[..m + 1] == [s[0]] + t[..m];
      assert s[m + 1..] == t[m..];
    }
  }

  lemma LongerLine(c: char, l: string)
    requires OneLine(l) && !Boundary(c)
    ensures OneLine([c] + l)
  {
    var k := [c] + l;
    assert k[..|k| - 1] == [c] + l[..|l| - 1];
    if |l| >= 2 {
      assert k[..|k| - 2] == [c] + l[..|l| - 2];
    }
  }

  /** However a text begins with such a line, it is the first one. */
  lemma {:induction false} CutsFirst(s: string, l: string)
    requires OneLine(l) && l <= s && EndsBefore(l, s[|l|..])
    ensures FirstLine(s) == |l|
    decreases |l|
  {
    if |l| >= 2 && !(|l| == 2 && l == "\r\n") {
      assert !Boundary(l[0]) by {
        if Unbroken(l[..|l| - 1]) {
          assert l[..|l| - 1][0] == l[0];
        } else {
          assert l[..|l| - 2][0] == l[0];
        }
      }
      ShorterLine(l);
      assert s[1..][|l| - 1..] == s[|l|..];
      assert l[1..] <= s[1..];
      CutsFirst(s[1..], l[1..]);
    }
  }

  lemma ShorterLine(l: string)
    requires OneLine(l) && |l| >= 2 && l != "\r\n"
    ensures OneLine(l[1..])
  {
    var k := l[1..];
    if Unbroken(l[..|l| - 1]) {
      assert k[..|k| - 1] == l[..|l| - 1][1..];
    } else if |k| >= 2 {
      assert k[..|k| - 2] == l[..|l| - 2][1..];
    }
  }

  /** A text has exactly one such cut. */
  lemma {:induction false} CutsExactly(s: string, lines: seq<string>)
    ensures Cut(s, lines) <==> lines == Lines(s)
    decreases |s|
  {
    if s != "" {
      var n := FirstLine(s);
      FirstLineCuts(s);
      assert Lines(s)[0] == s[..n] && Lines(s)[1..] == Lines(s[n..]);
      if lines != [] {
        CutsExactly(s[n..], lines[1..]);
        if Cut(s, lines) {
          CutsFirst(s, lines[0]);
          assert lines[0] == s[..n];
          assert lines == [s[..n]] + Lines(s[n..]);
        }
        if lines == Lines(s) {
          assert lines[0] == s[..n] && |lines[0]| == n;
          assert Cut(s[n..], lines[1..]);
        }
      }
    }
  }

  // ---- Whole documents ----

  ghost predicate IsMarker(line: string) {
    Trimmed(line, "---")
  }

  /** The markers are the first line and the first one after it, proper entries stand between them, and the body follows. */
  ghost predicate Holds(lines: seq<string>, d: Document, end: nat) {
    && 0 < end < |lines| && IsMarker(lines[0]) && IsMarker(lines[end]) && (forall j :: 0 < j < end ==> !IsMarker(lines[j]))
    && Proper(ReadLines(lines[1..end])) && Assigned(ReadLines(lines[1..end]), d.values) && d.body == Concat(lines[end + 1..])
  }

  lemma AssignedOnce(lines: seq<Line>, m: Values, n: Values)
    requires Assigned(lines, m) && Assigned(lines, n)
    ensures m == n
  {
    forall k ensures k in m <==> k in n {
    }
    forall k | k in m ensures m[k] == n[k] {
      var i :| 0 <= i < |lines| && lines[i].Entry? && lines[i].key == k;
    }
  }

  lemma MarkerAt(lines: seq<string>, end: nat)
    requires 0 < end < |lines|
    ensures Mark(lines, 1) == end <==> IsMarker(lines[end]) && forall j :: 0 < j < end ==> !IsMarker(lines[j])
  {
    forall j | 0 < j < |lines| ensures IsMarker(lines[j]) <==> Strip(lines[j]) == "---" {
      StripsExactly(lines[j], "---");
    }
  }

  /** A text is read as a document exactly if its lines hold it. */
  lemma ReadsDocument(text: string, d: Document)
    ensures ParseDocument(text) == Some(d) <==> exists lines, end :: Cut(text, lines) && Holds(lines, d, end)
  {
    var lines := Lines(text);
    CutsExactly(text, lines);
    if lines != [] {
      HoldsExactly(lines, d);
    }
    if exists ls, end :: Cut(text, ls) && Holds(ls, d, end) {
      var ls, end :| Cut(text, ls) && Holds(ls, d, end);
      CutsExactly(text, ls);
    }
  }

  lemma HoldsExactly(lines: seq<string>, d: Document)
    requires lines != []
    ensures ParseLines(lines) == Some(d) <==> exists end :: Holds(lines, d, end)
  {
    var mark := Mark(lines, 1);
    StripsExactly(lines[0], "---");
    if mark < |lines| {
      MarkerAt(lines, mark);
      HoldsAtMark(lines, d, mark);
    }
    forall end | Holds(lines, d, end) ensures end == mark {
      MarkerAt(lines, end);
    }
  }

  lemma HoldsAtMark(lines: seq<string>, d: Document, mark: nat)
    requires 0 < mark < |lines| && IsMarker(lines[mark]) && forall j :: 0 < j < mark ==> !IsMarker(lines[j])
    ensures Holds(lines, d, mark) <==>
            IsMarker(lines[0]) && Fields(ReadLines(lines[1..mark])) == Some(d.values) && d.body == Concat(lines[mark + 1..])
  {
    var read := ReadLines(lines[1..mark]);
    GathersExactly(read);
    if Proper(read) && Assigned(read, d.values) {
      AssignedOnce(read, d.values, Fields(read).value);
    }
  }

  // ---- Printing ----

  /** Exactly the newlines a body begins with are dropped when it is printed. */
  lemma {:induction false} DropsNewlines(body: string) returns (n: nat)
    ensures n <= |body| && StripNewlines(body) == body[n..] && (forall i :: 0 <= i < n ==> body[i] == '\n') && (n < |body| ==> body[n] != '\n')
    decreases |body|
  {
    n := 0;
    if body != "" && body[0] == '\n' {
      var m := DropsNewlines(body[1..]);
      n := m + 1;
      assert forall i :: 1 <= i < n ==> body[i] == body[1..][i - 1];
    }
  }

  /** The first stands before the second in the list. */
  ghost predicate Precedes(order: seq<string>, k: string, l: string) {
    exists a, b :: 0 <= a < b < |order| && order[a] == k && order[b] == l
  }

  lemma {:induction false} KnownPrecede(order: seq<string>, s: set<string>, i: nat, j: nat)
    requires i < j < |Known(order, s)|
    ensures Precedes(order, Known(order, s)[i], Known(order, s)[j])
    decreases |order|
  {
    var rest := Known(order[1..], s);
    if order[0] in s && i == 0 {
      assert rest[j - 1] in order[1..];
      var b :| 0 <= b < |order[1..]| && order[1..][b] == rest[j - 1];
      assert order[0] == Known(order, s)[0] && order[b + 1] == Known(order, s)[j];
    } else {
      var d := if order[0] in s then 1 else 0;
      KnownPrecede(order[1..], s, i - d, j - d);
      var a, b :| 0 <= a < b < |order[1..]| && order[1..][a] == rest[i - d] && order[1..][b] == rest[j - d];
      assert order[a + 1] == Known(order, s)[i] && order[b + 1] == Known(order, s)[j];
    }
  }

  /** Keys are printed with the known ones first, in their fixed order, and then the others, sorted. */
  lemma KeysInOrder(m: Values, i: nat, j: nat)
    requires i < j < |Keys(m)|
    ensures var k, l := Keys(m)[i], Keys(m)[j];
      if k in ORDER then l in ORDER ==> Precedes(ORDER, k, l) else l !in ORDER && Before(k, l)
  {
    var known := Known(ORDER, m.Keys);
    var others := SortedKeys(m.Keys - set k | k in ORDER);
    if j < |known| {
      KnownPrecede(ORDER, m.Keys, i, j);
    } else {
      assert Keys(m)[j] == others[j - |known|] && others[j - |known|] in others;
    }
    if i < |known| {
      assert known[i] in known;
    } else {
      assert others[i - |known|] in others;
    }
  }
}
