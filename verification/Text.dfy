/** Splitting and decimal printing, as the cursor and name parsers use them. */
module Text {
  import opened Options

  function IndexOf(s: string, c: char): (i: nat)
    ensures i <= |s| && (i < |s| ==> s[i] == c) && forall j :: 0 <= j < i ==> s[j] != c
  {
    if s == [] || s[0] == c then 0 else 1 + IndexOf(s[1..], c)
  }

  function Split(s: string, c: char): (parts: seq<string>)
    ensures |parts| >= 1
    decreases |s|
  {
    var i := IndexOf(s, c);
    if i == |s| then [s] else [s[..i]] + Split(s[i + 1..], c)
  }

  lemma SplitAtFirst(a: string, c: char, b: string)
    requires c !in a
    ensures Split(a + [c] + b, c) == [a] + Split(b, c)
  {
    var s := a + [c] + b;
    assert s[|a|] == c;
    assert IndexOf(s, c) == |a|;
    assert s[..|a|] == a && s[|a| + 1..] == b;
  }

  lemma SplitNone(a: string, c: char)
    requires c !in a
    ensures Split(a, c) == [a]
  {
  }

  function Join(parts: seq<string>, c: char): string
    requires parts != []
  {
    if |parts| == 1 then parts[0] else parts[0] + [c] + Join(parts[1..], c)
  }

  /** Joining what was split gives the string back, and no part contains the separator. */
  lemma {:induction false} JoinSplit(s: string, c: char)
    ensures Join(Split(s, c), c) == s
    ensures forall p :: p in Split(s, c) ==> c !in p
    decreases |s|
  {
    var i := IndexOf(s, c);
    if i < |s| {
      JoinSplit(s[i + 1..], c);
      assert ([s[..i]] + Split(s[i + 1..], c))[1..] == Split(s[i + 1..], c);
      assert s == s[..i] + [c] + s[i + 1..];
    }
  }

  /** Five parts without the separator, joined by it. */
  function FiveParts(a: string, b: string, c: string, d: string, e: string, sep: char): string {
    a + [sep] + (b + [sep] + (c + [sep] + (d + [sep] + e)))
  }

  lemma JoinFive(parts: seq<string>, sep: char)
    requires |parts| == 5
    ensures Join(parts, sep) == FiveParts(parts[0], parts[1], parts[2], parts[3], parts[4], sep)
  {
    var p1, p2, p3, p4 := parts[1..], parts[2..], parts[3..], parts[4..];
    assert p1[1..] == p2 && p2[1..] == p3 && p3[1..] == p4;
    assert Join(p4, sep) == parts[4];
    assert Join(p3, sep) == parts[3] + [sep] + Join(p4, sep);
    assert Join(p2, sep) == parts[2] + [sep] + Join(p3, sep);
    assert Join(p1, sep) == parts[1] + [sep] + Join(p2, sep);
  }

  /** Splitting what was joined gives the parts back. */
  lemma {:induction false} SplitJoin(parts: seq<string>, c: char)
    requires parts != [] && forall p :: p in parts ==> c !in p
    ensures Split(Join(parts, c), c) == parts
    decreases |parts|
  {
    if |parts| == 1 {
      SplitNone(parts[0], c);
      assert parts == [parts[0]];
    } else {
      assert forall p :: p in parts[1..] ==> p in parts;
      SplitJoin(parts[1..], c);
      SplitAtFirst(parts[0], c, Join(parts[1..], c));
      assert parts == [parts[0]] + parts[1..];
    }
  }

  lemma SplitFive(a: string, b: string, c: string, d: string, e: string, sep: char)
    requires sep !in a && sep !in b && sep !in c && sep !in d && sep !in e
    ensures Split(FiveParts(a, b, c, d, e, sep), sep) == [a, b, c, d, e]
  {
    JoinFive([a, b, c, d, e], sep);
    SplitJoin([a, b, c, d, e], sep);
  }

  // ---- Decimal numbers ----

  predicate Digit(c: char) {
    '0' <= c <= '9'
  }

  predicate Digits(s: string) {
    s != "" && forall i :: 0 <= i < |s| ==> Digit(s[i])
  }

  function Value(s: string): nat
    requires forall i :: 0 <= i < |s| ==> Digit(s[i])
  {
    if s == "" then 0
    else
      assert Digit(s[|s| - 1]);
      10 * Value(s[..|s| - 1]) + (s[|s| - 1] as int - '0' as int)
  }

  function Itoa(n: nat): (s: string)
    ensures Digits(s)
  {
    if n < 10 then [('0' as int + n) as char] else Itoa(n / 10) + [('0' as int + n % 10) as char]
  }

  lemma ValueAppends(s: string, c: char)
    requires Digits(s) && Digit(c)
    ensures Value(s + [c]) == 10 * Value(s) + (c as int - '0' as int)
  {
    assert (s + [c])[..|s + [c]| - 1] == s;
  }

  lemma {:induction false} ItoaValue(n: nat)
    ensures Value(Itoa(n)) == n
    decreases n
  {
    var c := ('0' as int + n % 10) as char;
    if n >= 10 {
      ItoaValue(n / 10);
      ValueAppends(Itoa(n / 10), c);
    } else {
      assert Itoa(n) == [c] && [c][..0] == "";
    }
  }

  /** A number is read only in the one form it is printed in: no sign, no leading zero. */
  function ParseNumber(s: string): Option<nat> {
    if Digits(s) && Itoa(Value(s)) == s then Some(Value(s)) else None
  }

  lemma NumberRoundTrip(n: nat)
    ensures ParseNumber(Itoa(n)) == Some(n)
  {
    ItoaValue(n);
  }
}
