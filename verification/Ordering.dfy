/** Sorting by a pair of strings, the way record sets and record values are ordered. */
module Ordering {
  datatype Key = Key(first: string, second: string)

  predicate Before(a: string, b: string) {
    if b == "" then false
    else if a == "" then true
    else if a[0] != b[0] then a[0] < b[0]
    else Before(a[1..], b[1..])
  }

  lemma {:induction false} BeforeTrichotomy(a: string, b: string)
    ensures Before(a, b) || Before(b, a) || a == b
    ensures !(Before(a, b) && Before(b, a)) && !(Before(a, b) && a == b)
    decreases |a|
  {
    if a != "" && b != "" && a[0] == b[0] {
      BeforeTrichotomy(a[1..], b[1..]);
      assert a == [a[0]] + a[1..] && b == [b[0]] + b[1..];
    }
  }

  lemma {:induction false} BeforeTransitive(a: string, b: string, c: string)
    requires Before(a, b) && Before(b, c)
    ensures Before(a, c)
    decreases |a|
  {
    if a != "" && a[0] == b[0] && b[0] == c[0] {
      BeforeTransitive(a[1..], b[1..], c[1..]);
    }
  }

  predicate Less(a: Key, b: Key) {
    if a.first != b.first then Before(a.first, b.first) else Before(a.second, b.second)
  }

  lemma LessTrichotomy(a: Key, b: Key)
    ensures Less(a, b) || Less(b, a) || a == b
    ensures !(Less(a, b) && Less(b, a)) && !(Less(a, b) && a == b)
  {
    BeforeTrichotomy(a.first, b.first);
    BeforeTrichotomy(a.second, b.second);
  }

  lemma LessTransitive(a: Key, b: Key, c: Key)
    requires Less(a, b) && Less(b, c)
    ensures Less(a, c)
  {
    if a.first == b.first && b.first == c.first {
      BeforeTransitive(a.second, b.second, c.second);
    } else if a.first != b.first && b.first != c.first {
      BeforeTransitive(a.first, b.first, c.first);
      BeforeTrichotomy(a.first, c.first);
    }
  }

  ghost predicate Sorted<T>(s: seq<T>, key: T -> Key) {
    forall i, j :: 0 <= i < j < |s| ==> !Less(key(s[j]), key(s[i]))
  }

  function Insert<T>(s: seq<T>, x: T, key: T -> Key): seq<T> {
    if s == [] || Less(key(x), key(s[0])) then [x] + s else [s[0]] + Insert(s[1..], x, key)
  }

  function Sort<T>(s: seq<T>, key: T -> Key): seq<T> {
    if s == [] then [] else Insert(Sort(s[..|s| - 1], key), s[|s| - 1], key)
  }

  lemma {:induction false} InsertKeeps<T>(s: seq<T>, x: T, key: T -> Key)
    ensures multiset(Insert(s, x, key)) == multiset(s) + multiset{x}
    decreases |s|
  {
    if s != [] && !Less(key(x), key(s[0])) {
      InsertKeeps(s[1..], x, key);
      assert s == [s[0]] + s[1..];
    }
  }

  lemma NotLessTransitive(a: Key, b: Key, c: Key)
    requires !Less(b, a) && !Less(c, b)
    ensures !Less(c, a)
  {
    LessTrichotomy(a, b);
    LessTrichotomy(b, c);
    LessTrichotomy(a, c);
    if Less(a, b) && Less(b, c) {
      LessTransitive(a, b, c);
    }
  }

  lemma {:induction false} InsertSorted<T>(s: seq<T>, x: T, key: T -> Key)
    requires Sorted(s, key)
    ensures Sorted(Insert(s, x, key), key)
    decreases |s|
  {
    var r := Insert(s, x, key);
    if s == [] || Less(key(x), key(s[0])) {
      forall i, j | 0 <= i < j < |r| ensures !Less(key(r[j]), key(r[i])) {
        if i == 0 {
          LessTrichotomy(key(x), key(s[0]));
          NotLessTransitive(key(x), key(s[0]), key(s[j - 1])) by {
            LessTrichotomy(key(s[0]), key(s[0]));
          }
        }
      }
    } else {
      InsertSorted(s[1..], x, key);
      InsertKeeps(s[1..], x, key);
      var rest := Insert(s[1..], x, key);
      forall j | 0 <= j < |rest| ensures !Less(key(rest[j]), key(s[0])) {
        assert rest[j] in multiset(rest);
        if rest[j] != x {
          assert rest[j] in s[1..];
          var k :| 0 <= k < |s[1..]| && s[1..][k] == rest[j];
          assert s[k + 1] == rest[j];
        }
      }
    }
  }

  lemma {:induction false} SortIsSorted<T>(s: seq<T>, key: T -> Key)
    ensures Sorted(Sort(s, key), key) && multiset(Sort(s, key)) == multiset(s)
    decreases |s|
  {
    if s != [] {
      SortIsSorted(s[..|s| - 1], key);
      InsertSorted(Sort(s[..|s| - 1], key), s[|s| - 1], key);
      InsertKeeps(Sort(s[..|s| - 1], key), s[|s| - 1], key);
      assert s == s[..|s| - 1] + [s[|s| - 1]];
    }
  }

  lemma HeadsAgree<T>(a: seq<T>, b: seq<T>, key: T -> Key)
    requires Sorted(a, key) && Sorted(b, key) && multiset(a) == multiset(b) && a != [] && b != []
    requires forall x, y :: x in a && y in a && key(x) == key(y) ==> x == y
    ensures a[0] == b[0]
  {
    assert b[0] in multiset(a) && a[0] in multiset(b);
    var i :| 0 <= i < |a| && a[i] == b[0];
    var j :| 0 <= j < |b| && b[j] == a[0];
    assert i > 0 ==> !Less(key(a[i]), key(a[0]));
    assert j > 0 ==> !Less(key(b[j]), key(b[0]));
    LessTrichotomy(key(a[0]), key(b[0]));
  }

  lemma TailOf<T>(a: seq<T>)
    requires a != []
    ensures multiset(a[1..]) == multiset(a) - multiset{a[0]}
  {
    assert a == [a[0]] + a[1..];
  }

  /** A sorted sequence is determined by its elements, once equal keys mean equal elements. */
  lemma {:induction false} SortedUnique<T>(a: seq<T>, b: seq<T>, key: T -> Key)
    requires Sorted(a, key) && Sorted(b, key) && multiset(a) == multiset(b)
    requires forall x, y :: x in a && y in a && key(x) == key(y) ==> x == y
    ensures a == b
    decreases |a|
  {
    assert |a| == |multiset(a)| == |multiset(b)| == |b|;
    if a != [] {
      HeadsAgree(a, b, key);
      TailOf(a);
      TailOf(b);
      SortedUnique(a[1..], b[1..], key);
      assert a == [a[0]] + a[1..] && b == [b[0]] + b[1..];
    }
  }
}
