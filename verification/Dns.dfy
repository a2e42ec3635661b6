/**
 Reading a DNS zone: names are brought into one absolute lower-case form, records are grouped into
 record sets by name and type, and sets and values are sorted, so that the same records in any order
 give the same sets, or are refused in any order. Names follow sections 2.3.3, 2.3.4 and 5.1 of RFC 1035.
 */
module Dns {
  import opened Options
  import opened Ordering
  import opened Text

  const RECORDS_MAX := 2000
  const NAME_MAX := 253
  const LABEL_MAX := 63
  const DATA_MAX := 8192
  const PRIORITY_MAX := 10
  const TTL_MAX := 2147483647

  // ---- Names ----

  /** Lower-casing, as far as it can end in the characters a label may have. */
  function LowerChar(c: char): char {
    if 'A' <= c <= 'Z' then (c as int + 32) as char
    else if c == '\U{130}' then 'i'
    else if c == '\U{212A}' then 'k'
    else c
  }

  function UpperChar(c: char): char {
    if 'a' <= c <= 'z' then (c as int - 32) as char
    else if c == '\U{131}' then 'I'
    else if c == '\U{17F}' then 'S'
    else c
  }

  function Mapped(s: string, f: char -> char): (r: string)
    ensures |r| == |s| && forall i :: 0 <= i < |s| ==> r[i] == f(s[i])
  {
    seq(|s|, i requires 0 <= i < |s| => f(s[i]))
  }

  function Lower(s: string): string {
    Mapped(s, LowerChar)
  }

  function Upper(s: string): string {
    Mapped(s, UpperChar)
  }

  predicate HasSuffix(s: string, suffix: string) {
    |s| >= |suffix| && s[|s| - |suffix|..] == suffix
  }

  function TrimDot(s: string): string {
    if HasSuffix(s, ".") then s[..|s| - 1] else s
  }

  predicate LabelEdge(c: char) {
    'a' <= c <= 'z' || '0' <= c <= '9'
  }

  predicate Label(s: string) {
    && 1 <= |s| <= LABEL_MAX && LabelEdge(s[0]) && LabelEdge(s[|s| - 1])
    && forall i :: 0 <= i < |s| ==> LabelEdge(s[i]) || s[i] == '-'
  }

  /** Service labels may carry underscores anywhere. */
  predicate OwnerLabel(s: string) {
    Label(Mapped(s, c => if c == '_' then 'a' else c))
  }

  predicate ZoneForm(name: string) {
    3 <= |name| <= NAME_MAX && '.' in name && forall part :: part in Split(name, '.') ==> Label(part)
  }

  function ZoneName(raw: string): Option<string> {
    var name := Lower(TrimDot(raw));
    if ZoneForm(name) then Some(name) else None
  }

  predicate InZone(name: string, zone: string) {
    name == zone || HasSuffix(name, "." + zone)
  }

  predicate OwnerForm(name: string) {
    && |name| <= NAME_MAX
    && var labels := Split(name, '.');
    forall i :: 0 <= i < |labels| ==> (i == 0 && labels[i] == "*") || OwnerLabel(labels[i])
  }

  function RecordName(raw: string, zone: string): Option<string> {
    if raw == "@" then Some(zone)
    else
      var absolute, relative := HasSuffix(raw, "."), Lower(TrimDot(raw));
      if !InZone(relative, zone) && absolute then None
      else
        var name := if InZone(relative, zone) then relative else relative + "." + zone;
        if OwnerForm(name) then Some(name) else None
  }

  predicate OwnerChar(c: char) {
    LabelEdge(c) || c == '-' || c == '_' || c == '*' || c == '.'
  }

  lemma LabelsAreOwners(s: string)
    requires Label(s)
    ensures OwnerLabel(s)
  {
  }

  /** Every character of a name, from its labels. */
  lemma {:induction false} CharsOfJoin(parts: seq<string>, allowed: char -> bool)
    requires parts != [] && allowed('.')
    requires forall p, i :: p in parts && 0 <= i < |p| ==> allowed(p[i])
    ensures forall i :: 0 <= i < |Join(parts, '.')| ==> allowed(Join(parts, '.')[i])
    decreases |parts|
  {
    if |parts| > 1 {
      forall p, i | p in parts[1..] && 0 <= i < |p| ensures allowed(p[i]) {
        assert p in parts;
      }
      CharsOfJoin(parts[1..], allowed);
    }
  }

  lemma {:induction false} LastOfJoin(parts: seq<string>)
    requires parts != [] && parts[|parts| - 1] != ""
    ensures Join(parts, '.') != "" && Join(parts, '.')[|Join(parts, '.')| - 1] == parts[|parts| - 1][|parts[|parts| - 1]| - 1]
    decreases |parts|
  {
    if |parts| > 1 {
      LastOfJoin(parts[1..]);
    }
  }

  lemma LowerFixed(s: string)
    requires forall i :: 0 <= i < |s| ==> OwnerChar(s[i])
    ensures Lower(s) == s
  {
  }

  lemma ZoneChars(name: string)
    requires ZoneForm(name)
    ensures (forall i :: 0 <= i < |name| ==> OwnerChar(name[i])) && name[|name| - 1] != '.'
  {
    var parts := Split(name, '.');
    JoinSplit(name, '.');
    CharsOfJoin(parts, OwnerChar);
    assert parts[|parts| - 1] in parts;
    LastOfJoin(parts);
  }

  /** A zone name is its own normal form. */
  lemma ZoneNameIdempotent(raw: string)
    requires ZoneName(raw).Some?
    ensures ZoneName(ZoneName(raw).value) == ZoneName(raw)
  {
    var name := ZoneName(raw).value;
    ZoneChars(name);
    LowerFixed(name);
    assert TrimDot(name) == name;
  }

  lemma OwnerChars(name: string)
    requires OwnerForm(name)
    ensures (forall i :: 0 <= i < |name| ==> OwnerChar(name[i])) && name != "" && name[|name| - 1] != '.'
  {
    var labels := Split(name, '.');
    JoinSplit(name, '.');
    forall p, i | p in labels && 0 <= i < |p| ensures OwnerChar(p[i]) {
      var k :| 0 <= k < |labels| && labels[k] == p;
      if p != "*" {
        assert OwnerLabel(p);
      }
    }
    CharsOfJoin(labels, OwnerChar);
    var last := labels[|labels| - 1];
    assert last == "*" || OwnerLabel(last);
    LastOfJoin(labels);
    assert last[|last| - 1] != '.' by {
      assert last in labels;
    }
  }

  lemma ZoneOwner(zone: string)
    requires ZoneForm(zone)
    ensures OwnerForm(zone)
  {
    var labels := Split(zone, '.');
    forall i | 0 <= i < |labels| ensures OwnerLabel(labels[i]) {
      assert labels[i] in labels;
      LabelsAreOwners(labels[i]);
    }
  }

  lemma SuffixAdded(a: string, zone: string)
    ensures HasSuffix(a + "." + zone, "." + zone)
  {
    assert a + "." + zone == a + ("." + zone);
  }

  /** An accepted owner name is absolute, lies in its zone, and is its own normal form. */
  lemma RecordNameIdempotent(raw: string, zone: string)
    requires ZoneForm(zone) && RecordName(raw, zone).Some?
    ensures var name := RecordName(raw, zone).value;
            RecordName(name, zone) == Some(name) && InZone(name, zone) && OwnerForm(name)
  {
    var name := RecordName(raw, zone).value;
    if raw == "@" {
      ZoneOwner(zone);
    } else {
      SuffixAdded(Lower(TrimDot(raw)), zone);
    }
    OwnerChars(name);
    LowerFixed(name);
    assert TrimDot(name) == name;
    assert name != "@";
  }

  /** A group key printed as name, slash, type tells names and types apart, as no owner name has a slash. */
  lemma GroupKeyInjective(name: string, kind: string, name': string, kind': string)
    requires OwnerForm(name) && OwnerForm(name') && name + "/" + kind == name' + "/" + kind'
    ensures name == name' && kind == kind'
  {
    OwnerChars(name);
    OwnerChars(name');
    var s := name + ['/'] + kind;
    assert s == name' + ['/'] + kind';
    assert IndexOf(s, '/') == |name| by {
      assert s[|name|] == '/' && forall i :: 0 <= i < |name| ==> s[i] == name[i];
    }
    assert IndexOf(s, '/') == |name'| by {
      assert s[|name'|] == '/' && forall i :: 0 <= i < |name'| ==> s[i] == name'[i];
    }
    assert s[..|name|] == name && s[..|name'|] == name';
    assert s[|name| + 1..] == kind && s[|name'| + 1..] == kind';
  }

  // ---- Records ----

  /** One native record; `ttl` and `immutable` are missing where the provider reports none. */
  datatype Record = Record(id: string, valid: bool, name: string, kind: string, value: DnsValue, ttl: Option<int>, immutable: Option<bool>)

  datatype DnsValue = DnsValue(data: string, priority: string)

  /** Legacy zones carry one TTL for all records and report nothing about immutability. */
  datatype Family = Cloud | Legacy(ttl: int)

  datatype RecordSet = RecordSet(name: string, kind: string, ttl: Option<int>, source: string, values: seq<DnsValue>, known: bool, immutable: Option<bool>)

  function KindOf(r: Record): string {
    Upper(r.kind)
  }

  function KeyOf(r: Record, zone: string): Key
    requires RecordName(r.name, zone).Some?
  {
    Key(RecordName(r.name, zone).value, KindOf(r))
  }

  function SetKey(s: RecordSet): Key {
    Key(s.name, s.kind)
  }

  function ValueKey(v: DnsValue): Key {
    Key(v.priority, v.data)
  }

  function TtlOf(f: Family, r: Record): Option<int> {
    if f.Cloud? then r.ttl else Some(f.ttl)
  }

  function Source(f: Family, ttl: Option<int>): string {
    if f.Legacy? then "zone" else if ttl.None? then "unknown" else "record"
  }

  predicate KnownKind(kind: string) {
    kind in {"A", "AAAA", "MX", "TXT", "CNAME", "SRV", "NS", "DS", "TLSA", "CAA", "SSHFP", "SMIMEA", "OPENPGPKEY"}
  }

  predicate KindForm(kind: string) {
    1 <= |kind| <= 16 && 'A' <= kind[0] <= 'Z' && forall i :: 0 <= i < |kind| ==> 'A' <= kind[i] <= 'Z' || Digit(kind[i])
  }

  predicate ValueFits(v: DnsValue) {
    |v.data| <= DATA_MAX && '\0' !in v.data && |v.priority| <= PRIORITY_MAX
  }

  /** What one record must satisfy to be grouped. */
  predicate Groupable(f: Family, zone: string, r: Record) {
    r.valid && (f.Cloud? ==> r.immutable.Some?) && RecordName(r.name, zone).Some?
  }

  /** What it must satisfy besides to stay in a snapshot. */
  predicate Storable(f: Family, r: Record) {
    KindForm(KindOf(r)) && (TtlOf(f, r).Some? ==> 0 <= TtlOf(f, r).value <= TTL_MAX) && ValueFits(r.value)
  }

  /** Two different records of a zone: different identities, and one TTL within a set. */
  ghost predicate Agree(f: Family, zone: string, a: Record, b: Record)
    requires RecordName(a.name, zone).Some? && RecordName(b.name, zone).Some?
  {
    a.id != b.id && (KeyOf(a, zone) == KeyOf(b, zone) ==> TtlOf(f, a) == TtlOf(f, b))
  }

  /** When a zone is accepted: a condition on the records, not on their order. */
  ghost predicate Groups(f: Family, zone: string, m: multiset<Record>) {
    && (forall r :: r in m ==> Groupable(f, zone, r) && m[r] == 1)
    && (forall a, b :: a in m && b in m && a != b ==> Agree(f, zone, a, b))
  }

  ghost predicate Acceptable(f: Family, zone: string, m: multiset<Record>) {
    |m| <= RECORDS_MAX && Groups(f, zone, m) && forall r :: r in m ==> Storable(f, r)
  }

  /** The values of one set, in the order their records came. */
  ghost function ValuesOf(records: seq<Record>, zone: string, key: Key): seq<DnsValue> {
    if records == [] then []
    else
      var r := records[|records| - 1];
      ValuesOf(records[..|records| - 1], zone, key)
      + if RecordName(r.name, zone).Some? && KeyOf(r, zone) == key then [r.value] else []
  }

  ghost predicate Belongs(r: Record, zone: string, key: Key) {
    RecordName(r.name, zone).Some? && KeyOf(r, zone) == key
  }

  /** Some record of the set is immutable. */
  ghost predicate Pinned(records: seq<Record>, zone: string, key: Key) {
    records != [] &&
    (Pinned(records[..|records| - 1], zone, key)
     || (Belongs(records[|records| - 1], zone, key) && records[|records| - 1].immutable == Some(true)))
  }

  /** A set stands for exactly the records of its name and type. */
  ghost predicate Describes(f: Family, zone: string, records: seq<Record>, s: RecordSet) {
    && multiset(s.values) == multiset(ValuesOf(records, zone, SetKey(s)))
    && s.values != []
    && (forall r :: r in records && RecordName(r.name, zone).Some? && KeyOf(r, zone) == SetKey(s) ==> s.ttl == TtlOf(f, r))
    && s.source == Source(f, s.ttl) && s.known == KnownKind(s.kind)
    && s.immutable == (if f.Legacy? then None else Some(Pinned(records, zone, SetKey(s))))
  }

  /** Sorted sets with sorted values, one for each name and type, each standing for its records. */
  ghost predicate Canonical(f: Family, zone: string, records: seq<Record>, sets: seq<RecordSet>) {
    && Sorted(sets, SetKey)
    && (forall i, j :: 0 <= i < j < |sets| ==> SetKey(sets[i]) != SetKey(sets[j]))
    && (forall s :: s in sets ==> Sorted(s.values, ValueKey) && Describes(f, zone, records, s))
    && (forall r :: r in records && RecordName(r.name, zone).Some? ==> exists s :: s in sets && SetKey(s) == KeyOf(r, zone))
  }

  ghost predicate Carried(records: seq<Record>, zone: string, key: Key, v: DnsValue) {
    exists r :: r in records && Belongs(r, zone, key) && r.value == v
  }

  lemma SourceSplits(front: seq<Record>, last: Record, zone: string, key: Key, v: DnsValue)
    ensures Carried(front + [last], zone, key, v) <==> Carried(front, zone, key, v) || (Belongs(last, zone, key) && last.value == v)
  {
    assert forall r :: r in front + [last] <==> r in front || r == last;
  }

  /** A value is in a set exactly when a record of the set carries it. */
  lemma {:induction false} ValueComesFrom(records: seq<Record>, zone: string, key: Key, v: DnsValue)
    ensures v in ValuesOf(records, zone, key) <==> Carried(records, zone, key, v)
    decreases |records|
  {
    if records != [] {
      var front, last := records[..|records| - 1], records[|records| - 1];
      ValueComesFrom(front, zone, key, v);
      SourceSplits(front, last, zone, key, v);
      assert records == front + [last];
    }
  }

  lemma {:induction false} PinnedMeaning(records: seq<Record>, zone: string, key: Key)
    ensures Pinned(records, zone, key) <==> exists r :: r in records && Belongs(r, zone, key) && r.immutable == Some(true)
    decreases |records|
  {
    if records != [] {
      var front, last := records[..|records| - 1], records[|records| - 1];
      PinnedMeaning(front, zone, key);
      assert records == front + [last];
      assert forall r :: r in records <==> r in front || r == last;
    }
  }

  /** Every set has a record. */
  lemma SetRecord(f: Family, zone: string, records: seq<Record>, s: RecordSet) returns (r: Record)
    requires Describes(f, zone, records, s)
    ensures r in records && Belongs(r, zone, SetKey(s))
  {
    var v := s.values[0];
    assert v in multiset(s.values);
    assert v in ValuesOf(records, zone, SetKey(s));
    ValueComesFrom(records, zone, SetKey(s), v);
    r :| r in records && Belongs(r, zone, SetKey(s)) && r.value == v;
  }

  // ---- Order does not matter ----

  lemma {:induction false} ValuesAppend(a: seq<Record>, b: seq<Record>, zone: string, key: Key)
    ensures ValuesOf(a + b, zone, key) == ValuesOf(a, zone, key) + ValuesOf(b, zone, key)
    decreases |b|
  {
    if b == [] {
      assert a + b == a;
    } else {
      var front, last := b[..|b| - 1], b[|b| - 1];
      assert (a + b)[..|a + b| - 1] == a + front;
      ValuesAppend(a, front, zone, key);
    }
  }

  lemma ValuesAt(b: seq<Record>, j: nat, zone: string, key: Key)
    requires j < |b|
    ensures multiset(ValuesOf(b, zone, key)) == multiset(ValuesOf(b[..j] + b[j + 1..], zone, key)) + multiset(ValuesOf([b[j]], zone, key))
  {
    assert b == b[..j] + ([b[j]] + b[j + 1..]);
    ValuesAppend(b[..j], [b[j]] + b[j + 1..], zone, key);
    ValuesAppend([b[j]], b[j + 1..], zone, key);
    ValuesAppend(b[..j], b[j + 1..], zone, key);
  }

  lemma RemovedAt(b: seq<Record>, j: nat)
    requires j < |b|
    ensures multiset(b[..j] + b[j + 1..]) == multiset(b) - multiset{b[j]}
  {
    assert b == b[..j] + ([b[j]] + b[j + 1..]);
  }

  function Removed(b: seq<Record>, j: nat): seq<Record>
    requires j < |b|
  {
    b[..j] + b[j + 1..]
  }

  /** Reordering records reorders the values of every set. */
  lemma {:induction false} ValuesPermute(a: seq<Record>, b: seq<Record>, zone: string, key: Key)
    requires multiset(a) == multiset(b)
    ensures multiset(ValuesOf(a, zone, key)) == multiset(ValuesOf(b, zone, key))
    decreases |a|
  {
    assert |a| == |multiset(a)| == |multiset(b)| == |b|;
    if a != [] {
      assert a[0] in multiset(b);
      var j :| 0 <= j < |b| && b[j] == a[0];
      assert multiset(Removed(a, 0)) == multiset(Removed(b, j)) by {
        RemovedAt(a, 0);
        RemovedAt(b, j);
      }
      ValuesPermute(Removed(a, 0), Removed(b, j), zone, key);
      assert multiset(ValuesOf(a, zone, key)) == multiset(ValuesOf(Removed(a, 0), zone, key)) + multiset(ValuesOf([a[0]], zone, key)) by {
        ValuesAt(a, 0, zone, key);
      }
      assert multiset(ValuesOf(b, zone, key)) == multiset(ValuesOf(Removed(b, j), zone, key)) + multiset(ValuesOf([a[0]], zone, key)) by {
        ValuesAt(b, j, zone, key);
      }
    }
  }

  lemma SameMembers(a: seq<Record>, b: seq<Record>)
    requires multiset(a) == multiset(b)
    ensures forall r :: r in a <==> r in b
  {
    assert forall r :: r in a <==> r in multiset(a);
    assert forall r :: r in b <==> r in multiset(b);
  }

  lemma DescribedAlike(f: Family, zone: string, a: seq<Record>, b: seq<Record>, s: RecordSet, t: RecordSet)
    requires multiset(a) == multiset(b) && SetKey(s) == SetKey(t)
    requires Describes(f, zone, a, s) && Describes(f, zone, b, t) && Sorted(s.values, ValueKey) && Sorted(t.values, ValueKey)
    ensures s == t
  {
    SameMembers(a, b);
    ValuesPermute(a, b, zone, SetKey(s));
    SortedUnique(s.values, t.values, ValueKey);
    var r := SetRecord(f, zone, a, s);
    assert r in b && s.ttl == TtlOf(f, r) == t.ttl;
    PinnedMeaning(a, zone, SetKey(s));
    PinnedMeaning(b, zone, SetKey(s));
  }

  lemma {:induction false} EachOnce(sets: seq<RecordSet>, s: RecordSet)
    requires forall i, j :: 0 <= i < j < |sets| ==> SetKey(sets[i]) != SetKey(sets[j])
    ensures multiset(sets)[s] == if s in sets then 1 else 0
    decreases |sets|
  {
    if sets != [] {
      assert sets == [sets[0]] + sets[1..];
      EachOnce(sets[1..], s);
      assert forall k :: 0 <= k < |sets[1..]| ==> SetKey(sets[0]) != SetKey(sets[1..][k]);
    }
  }

  lemma SetsIn(f: Family, zone: string, a: seq<Record>, b: seq<Record>, sets: seq<RecordSet>, others: seq<RecordSet>, s: RecordSet)
    requires multiset(a) == multiset(b) && Canonical(f, zone, a, sets) && Canonical(f, zone, b, others) && s in sets
    ensures s in others
  {
    SameMembers(a, b);
    assert Describes(f, zone, a, s);
    var r := SetRecord(f, zone, a, s);
    assert r in b;
    var t :| t in others && SetKey(t) == KeyOf(r, zone);
    DescribedAlike(f, zone, a, b, s, t);
  }

  /** The same records in any order have one canonical form. */
  lemma CanonicalUnique(f: Family, zone: string, a: seq<Record>, b: seq<Record>, sets: seq<RecordSet>, others: seq<RecordSet>)
    requires multiset(a) == multiset(b) && Canonical(f, zone, a, sets) && Canonical(f, zone, b, others)
    ensures sets == others
  {
    forall s ensures multiset(sets)[s] == multiset(others)[s] {
      if s in sets { SetsIn(f, zone, a, b, sets, others, s); }
      if s in others { SetsIn(f, zone, b, a, others, sets, s); }
      EachOnce(sets, s);
      EachOnce(others, s);
    }
    forall x, y | x in sets && y in sets && SetKey(x) == SetKey(y) ensures x == y {
      var i :| 0 <= i < |sets| && sets[i] == x;
      var j :| 0 <= j < |sets| && sets[j] == y;
    }
    SortedUnique(sets, others, SetKey);
  }

  // ---- Grouping ----

  ghost predicate Fits(f: Family, zone: string, before: seq<Record>, r: Record)
    requires forall a :: a in before ==> RecordName(a.name, zone).Some?
  {
    Groupable(f, zone, r) && forall a :: a in before ==> Agree(f, zone, a, r)
  }

  lemma InPrefix(before: seq<Record>, r: Record)
    ensures forall a :: a in before <==> a in multiset(before)
    ensures multiset(before + [r]) == multiset(before) + multiset{r}
  {
  }

  /** One more record keeps the zone acceptable exactly when it fits those before it. */
  lemma GroupsStep(f: Family, zone: string, before: seq<Record>, r: Record)
    requires Groups(f, zone, multiset(before)) && forall a :: a in before ==> RecordName(a.name, zone).Some?
    ensures Groups(f, zone, multiset(before + [r])) <==> Fits(f, zone, before, r)
  {
    InPrefix(before, r);
    var m, m' := multiset(before), multiset(before + [r]);
    if Fits(f, zone, before, r) {
      assert r !in m;
      forall a, b | a in m' && b in m' && a != b ensures Agree(f, zone, a, b) {
        if a == r {
          assert Agree(f, zone, b, r);
        } else if b == r {
          assert Agree(f, zone, a, r);
        } else {
          assert Agree(f, zone, a, b);
        }
      }
    }
    if Groups(f, zone, m') {
      assert r in m';
      forall a | a in before ensures Agree(f, zone, a, r) {
        assert a in m';
        assert m'[r] == 1;
        assert a != r;
      }
    }
  }

  lemma GroupsPart(f: Family, zone: string, a: seq<Record>, b: seq<Record>)
    requires Groups(f, zone, multiset(a + b))
    ensures Groups(f, zone, multiset(a))
  {
    var m, m' := multiset(a), multiset(a + b);
    assert m' == m + multiset(b);
    forall r | r in m ensures Groupable(f, zone, r) && m[r] == 1 {
      assert r in m' && m'[r] == 1;
    }
    forall x, y | x in m && y in m && x != y ensures Agree(f, zone, x, y) {
      assert x in m' && y in m';
    }
  }

  /** `groups` finds each set by its key. */
  ghost predicate Indexed(sets: seq<RecordSet>, groups: map<Key, nat>) {
    && (forall k :: k in groups ==> groups[k] < |sets| && SetKey(sets[groups[k]]) == k)
    && (forall i :: 0 <= i < |sets| ==> SetKey(sets[i]) in groups && groups[SetKey(sets[i])] == i)
  }

  ghost predicate AllDescribed(f: Family, zone: string, before: seq<Record>, sets: seq<RecordSet>) {
    forall i :: 0 <= i < |sets| ==> Describes(f, zone, before, sets[i])
  }

  ghost predicate AllKeyed(zone: string, before: seq<Record>, groups: map<Key, nat>) {
    forall r :: r in before ==> RecordName(r.name, zone).Some? && KeyOf(r, zone) in groups
  }

  /** The sets collected so far stand for the records read so far. */
  ghost predicate Grouped(f: Family, zone: string, before: seq<Record>, sets: seq<RecordSet>, groups: map<Key, nat>) {
    Indexed(sets, groups) && AllDescribed(f, zone, before, sets) && AllKeyed(zone, before, groups)
  }

  lemma ValuesNone(before: seq<Record>, zone: string, key: Key)
    requires forall r :: r in before && RecordName(r.name, zone).Some? ==> KeyOf(r, zone) != key
    ensures ValuesOf(before, zone, key) == []
  {
    if before != [] {
      assert before[|before| - 1] in before;
      ValuesNone(before[..|before| - 1], zone, key);
    }
  }

  lemma ValuesOne(before: seq<Record>, r: Record, zone: string, key: Key)
    ensures ValuesOf(before + [r], zone, key)
            == ValuesOf(before, zone, key) + if RecordName(r.name, zone).Some? && KeyOf(r, zone) == key then [r.value] else []
  {
    assert (before + [r])[..|before|] == before;
  }

  lemma PinnedStep(before: seq<Record>, r: Record, zone: string, key: Key)
    ensures Pinned(before + [r], zone, key) == (Pinned(before, zone, key) || (Belongs(r, zone, key) && r.immutable == Some(true)))
  {
    assert (before + [r])[..|before|] == before;
  }

  /** A record of another set. */
  lemma DescribesOther(f: Family, zone: string, before: seq<Record>, r: Record, s: RecordSet)
    requires Describes(f, zone, before, s) && RecordName(r.name, zone).Some? && KeyOf(r, zone) != SetKey(s)
    ensures Describes(f, zone, before + [r], s)
  {
    ValuesOne(before, r, zone, SetKey(s));
    PinnedStep(before, r, zone, SetKey(s));
  }

  function Extended(f: Family, s: RecordSet, r: Record): RecordSet {
    s.(values := s.values + [r.value], immutable := if f.Cloud? && r.immutable == Some(true) then r.immutable else s.immutable)
  }

  /** One more record of the same set. */
  lemma DescribesMore(f: Family, zone: string, before: seq<Record>, r: Record, s: RecordSet)
    requires Describes(f, zone, before, s) && RecordName(r.name, zone).Some? && KeyOf(r, zone) == SetKey(s) && s.ttl == TtlOf(f, r)
    ensures Describes(f, zone, before + [r], Extended(f, s, r))
  {
    ValuesOne(before, r, zone, SetKey(s));
    PinnedStep(before, r, zone, SetKey(s));
  }

  function NewSet(f: Family, zone: string, r: Record): RecordSet
    requires RecordName(r.name, zone).Some?
  {
    var ttl := TtlOf(f, r);
    RecordSet(RecordName(r.name, zone).value, KindOf(r), ttl, Source(f, ttl), [r.value], KnownKind(KindOf(r)), if f.Cloud? then r.immutable else None)
  }

  lemma PinnedNew(before: seq<Record>, r: Record, zone: string)
    requires RecordName(r.name, zone).Some? && r.immutable.Some?
    requires forall a :: a in before ==> RecordName(a.name, zone).Some? && KeyOf(a, zone) != KeyOf(r, zone)
    ensures Some(Pinned(before + [r], zone, KeyOf(r, zone))) == r.immutable
  {
    PinnedMeaning(before, zone, KeyOf(r, zone));
    PinnedStep(before, r, zone, KeyOf(r, zone));
    var b := r.immutable.value;
    assert r.immutable == Some(b) && (b <==> r.immutable == Some(true));
  }

  /** The first record of a set. */
  lemma DescribesNew(f: Family, zone: string, before: seq<Record>, r: Record)
    requires Groupable(f, zone, r)
    requires forall a :: a in before ==> RecordName(a.name, zone).Some? && KeyOf(a, zone) != KeyOf(r, zone)
    ensures Describes(f, zone, before + [r], NewSet(f, zone, r))
  {
    var key := KeyOf(r, zone);
    ValuesNone(before, zone, key);
    ValuesOne(before, r, zone, key);
    if f.Cloud? {
      PinnedNew(before, r, zone);
    }
    assert r in before + [r];
  }

  lemma DescribedNew(f: Family, zone: string, before: seq<Record>, r: Record, sets: seq<RecordSet>, groups: map<Key, nat>)
    requires Grouped(f, zone, before, sets, groups) && Groupable(f, zone, r) && KeyOf(r, zone) !in groups
    ensures AllDescribed(f, zone, before + [r], sets + [NewSet(f, zone, r)])
  {
    var sets' := sets + [NewSet(f, zone, r)];
    forall i | 0 <= i < |sets'| ensures Describes(f, zone, before + [r], sets'[i]) {
      if i < |sets| {
        assert SetKey(sets[i]) in groups;
        DescribesOther(f, zone, before, r, sets[i]);
      } else {
        DescribesNew(f, zone, before, r);
      }
    }
  }

  lemma GroupedNew(f: Family, zone: string, before: seq<Record>, r: Record, sets: seq<RecordSet>, groups: map<Key, nat>)
    requires Grouped(f, zone, before, sets, groups) && Groupable(f, zone, r) && KeyOf(r, zone) !in groups
    ensures Grouped(f, zone, before + [r], sets + [NewSet(f, zone, r)], groups[KeyOf(r, zone) := |sets|])
  {
    DescribedNew(f, zone, before, r, sets, groups);
    IndexedNew(sets, groups, NewSet(f, zone, r));
  }

  lemma IndexedNew(sets: seq<RecordSet>, groups: map<Key, nat>, s: RecordSet)
    requires Indexed(sets, groups) && SetKey(s) !in groups
    ensures Indexed(sets + [s], groups[SetKey(s) := |sets|])
  {
  }

  lemma DescribedMore(f: Family, zone: string, before: seq<Record>, r: Record, sets: seq<RecordSet>, groups: map<Key, nat>)
    requires Grouped(f, zone, before, sets, groups) && Groupable(f, zone, r) && KeyOf(r, zone) in groups
    requires sets[groups[KeyOf(r, zone)]].ttl == TtlOf(f, r)
    ensures var k := groups[KeyOf(r, zone)]; AllDescribed(f, zone, before + [r], sets[k := Extended(f, sets[k], r)])
  {
    var k := groups[KeyOf(r, zone)];
    var sets' := sets[k := Extended(f, sets[k], r)];
    forall i | 0 <= i < |sets'| ensures Describes(f, zone, before + [r], sets'[i]) {
      assert groups[SetKey(sets[i])] == i;
      if i == k {
        DescribesMore(f, zone, before, r, sets[k]);
      } else {
        DescribesOther(f, zone, before, r, sets[i]);
      }
    }
  }

  lemma GroupedMore(f: Family, zone: string, before: seq<Record>, r: Record, sets: seq<RecordSet>, groups: map<Key, nat>)
    requires Grouped(f, zone, before, sets, groups) && Groupable(f, zone, r) && KeyOf(r, zone) in groups
    requires sets[groups[KeyOf(r, zone)]].ttl == TtlOf(f, r)
    ensures var k := groups[KeyOf(r, zone)]; Grouped(f, zone, before + [r], sets[k := Extended(f, sets[k], r)], groups)
  {
    var k := groups[KeyOf(r, zone)];
    DescribedMore(f, zone, before, r, sets, groups);
    IndexedSame(sets, groups, k, Extended(f, sets[k], r));
    KeyedMore(zone, before, r, groups);
  }

  lemma KeyedMore(zone: string, before: seq<Record>, r: Record, groups: map<Key, nat>)
    requires AllKeyed(zone, before, groups) && RecordName(r.name, zone).Some? && KeyOf(r, zone) in groups
    ensures AllKeyed(zone, before + [r], groups)
  {
  }

  lemma IndexedSame(sets: seq<RecordSet>, groups: map<Key, nat>, k: nat, s: RecordSet)
    requires Indexed(sets, groups) && k < |sets| && SetKey(s) == SetKey(sets[k])
    ensures Indexed(sets[k := s], groups)
  {
  }

  /** A set's TTL is that of each of its records. */
  lemma FitsByTtl(f: Family, zone: string, before: seq<Record>, r: Record, sets: seq<RecordSet>, groups: map<Key, nat>)
    requires Grouped(f, zone, before, sets, groups) && Groupable(f, zone, r) && forall a :: a in before ==> a.id != r.id
    ensures Fits(f, zone, before, r) <==> (KeyOf(r, zone) in groups ==> sets[groups[KeyOf(r, zone)]].ttl == TtlOf(f, r))
  {
    if KeyOf(r, zone) in groups {
      var s := sets[groups[KeyOf(r, zone)]];
      assert Describes(f, zone, before, s);
      var a := SetRecord(f, zone, before, s);
      assert s.ttl == TtlOf(f, a);
      if Fits(f, zone, before, r) {
        assert Agree(f, zone, a, r);
      }
    }
  }

  /** One record joins its set, or starts it, unless its TTL disagrees. */
  method Add(f: Family, zone: string, ghost before: seq<Record>, r: Record, sets: seq<RecordSet>, index: map<Key, nat>)
    returns (ok: bool, sets': seq<RecordSet>, index': map<Key, nat>)
    requires Grouped(f, zone, before, sets, index) && r.valid && (f.Cloud? ==> r.immutable.Some?)
    requires forall a :: a in before ==> a.id != r.id
    ensures ok <==> Fits(f, zone, before, r)
    ensures ok ==> Grouped(f, zone, before + [r], sets', index')
  {
    var name := RecordName(r.name, zone);
    if name.None? {
      return false, sets, index;
    }
    var key := Key(name.value, KindOf(r));
    FitsByTtl(f, zone, before, r, sets, index);
    if key !in index {
      GroupedNew(f, zone, before, r, sets, index);
      return true, sets + [NewSet(f, zone, r)], index[key := |sets|];
    }
    var k := index[key];
    if sets[k].ttl != TtlOf(f, r) {
      return false, sets, index;
    }
    GroupedMore(f, zone, before, r, sets, index);
    return true, sets[k := Extended(f, sets[k], r)], index;
  }

  ghost predicate Ids(ids: set<string>, before: seq<Record>) {
    forall x :: x in ids <==> exists k :: 0 <= k < |before| && before[k].id == x
  }

  lemma IdsSeen(f: Family, zone: string, ids: set<string>, before: seq<Record>, r: Record)
    requires Ids(ids, before) && forall a :: a in before ==> RecordName(a.name, zone).Some?
    ensures r.id in ids ==> !Fits(f, zone, before, r)
    ensures r.id !in ids ==> forall a :: a in before ==> a.id != r.id
    ensures Ids(ids + {r.id}, before + [r])
  {
    if r.id in ids && Groupable(f, zone, r) {
      var k :| 0 <= k < |before| && before[k].id == r.id;
      assert before[k] in before && !Agree(f, zone, before[k], r);
    }
    forall x ensures x in ids + {r.id} <==> exists k :: 0 <= k < |before + [r]| && (before + [r])[k].id == x {
      if x in ids {
        var k :| 0 <= k < |before| && before[k].id == x;
        assert (before + [r])[k].id == x;
      }
      assert (before + [r])[|before|] == r;
    }
  }

  /** The records read so far group, and this is how. */
  ghost predicate Sofar(f: Family, zone: string, before: seq<Record>, sets: seq<RecordSet>, index: map<Key, nat>, ids: set<string>) {
    Groups(f, zone, multiset(before)) && Grouped(f, zone, before, sets, index) && Ids(ids, before)
  }

  /** One turn of the grouping loop. */
  method Take(f: Family, zone: string, ghost before: seq<Record>, r: Record, ids: set<string>, sets: seq<RecordSet>, index: map<Key, nat>)
    returns (ok: bool, ids': set<string>, sets': seq<RecordSet>, index': map<Key, nat>)
    requires Sofar(f, zone, before, sets, index, ids)
    ensures ok ==> Sofar(f, zone, before + [r], sets', index', ids')
    ensures !ok ==> !Groups(f, zone, multiset(before + [r]))
  {
    GroupsStep(f, zone, before, r);
    IdsSeen(f, zone, ids, before, r);
    if !r.valid || r.id in ids || (f.Cloud? && r.immutable.None?) {
      return false, ids, sets, index;
    }
    ids' := ids + {r.id};
    ok, sets', index' := Add(f, zone, before, r, sets, index);
  }

  /** The verdict on all records, reached at one of them. */
  ghost predicate Verdict(f: Family, zone: string, records: seq<Record>, ok: bool, sets: seq<RecordSet>, index: map<Key, nat>) {
    && (ok <==> Groups(f, zone, multiset(records)))
    && (ok ==> Grouped(f, zone, records, sets, index))
  }

  /** What does not group does not group with more. */
  lemma RefusedAt(f: Family, zone: string, records: seq<Record>, before: seq<Record>, sets: seq<RecordSet>, index: map<Key, nat>)
    requires before <= records && !Groups(f, zone, multiset(before))
    ensures Verdict(f, zone, records, false, sets, index)
  {
    assert records == before + records[|before|..];
    if Groups(f, zone, multiset(records)) {
      GroupsPart(f, zone, before, records[|before|..]);
    }
  }

  lemma AcceptedAt(f: Family, zone: string, records: seq<Record>, before: seq<Record>, sets: seq<RecordSet>, index: map<Key, nat>, ids: set<string>)
    requires before <= records && |before| == |records| && Sofar(f, zone, before, sets, index, ids)
    ensures Verdict(f, zone, records, true, sets, index)
  {
    assert before == records;
  }

  lemma NothingSofar(f: Family, zone: string)
    ensures Sofar(f, zone, [], [], map[], {})
  {
  }

  /** The grouping loop: refused exactly when the records, in whatever order, do not group. */
  method Group(f: Family, zone: string, records: seq<Record>) returns (ok: bool, sets: seq<RecordSet>, ghost groups: map<Key, nat>)
    ensures Verdict(f, zone, records, ok, sets, groups)
  {
    sets := [];
    var index: map<Key, nat> := map[];
    var ids: set<string> := {};
    ghost var before: seq<Record> := [];
    NothingSofar(f, zone);
    var i := 0;
    while i < |records|
      invariant i == |before| && before <= records && Sofar(f, zone, before, sets, index, ids)
    {
      ok, ids, sets, index := Take(f, zone, before, records[i], ids, sets, index);
      before := before + [records[i]];
      i := i + 1;
      if !ok {
        RefusedAt(f, zone, records, before, sets, index);
        return false, sets, index;
      }
    }
    AcceptedAt(f, zone, records, before, sets, index, ids);
    return true, sets, index;
  }

  // ---- Checking and sorting ----

  predicate SetFits(s: RecordSet) {
    && KindForm(s.kind) && (s.ttl.Some? ==> 0 <= s.ttl.value <= TTL_MAX)
    && forall v :: v in s.values ==> ValueFits(v)
  }

  /** A set fits exactly when all its records do. */
  lemma SetFitsByRecords(f: Family, zone: string, records: seq<Record>, s: RecordSet)
    requires Describes(f, zone, records, s)
    ensures SetFits(s) <==> forall r :: r in records && RecordName(r.name, zone).Some? && KeyOf(r, zone) == SetKey(s) ==> Storable(f, r)
  {
    forall v ensures v in s.values <==> exists r :: r in records && RecordName(r.name, zone).Some? && KeyOf(r, zone) == SetKey(s) && r.value == v {
      ValueComesFrom(records, zone, SetKey(s), v);
      assert v in s.values <==> v in multiset(s.values);
      assert v in ValuesOf(records, zone, SetKey(s)) <==> v in multiset(ValuesOf(records, zone, SetKey(s)));
    }
    var x := SetRecord(f, zone, records, s);
    if SetFits(s) {
      forall r | r in records && RecordName(r.name, zone).Some? && KeyOf(r, zone) == SetKey(s) ensures Storable(f, r) {
        assert r.value in s.values;
      }
    }
    if forall r :: r in records && RecordName(r.name, zone).Some? && KeyOf(r, zone) == SetKey(s) ==> Storable(f, r) {
      assert Storable(f, x);
      forall v | v in s.values ensures ValueFits(v) {
        var r :| r in records && RecordName(r.name, zone).Some? && KeyOf(r, zone) == SetKey(s) && r.value == v;
        assert Storable(f, r);
      }
    }
  }

  lemma AllFit(f: Family, zone: string, records: seq<Record>, sets: seq<RecordSet>, groups: map<Key, nat>)
    requires Grouped(f, zone, records, sets, groups)
    ensures (forall i :: 0 <= i < |sets| ==> SetFits(sets[i])) <==> forall r :: r in records ==> Storable(f, r)
  {
    forall i | 0 <= i < |sets|
      ensures SetFits(sets[i]) <==> forall r :: r in records && RecordName(r.name, zone).Some? && KeyOf(r, zone) == SetKey(sets[i]) ==> Storable(f, r)
    {
      SetFitsByRecords(f, zone, records, sets[i]);
    }
    if forall i :: 0 <= i < |sets| ==> SetFits(sets[i]) {
      forall r | r in records ensures Storable(f, r) {
        var i := groups[KeyOf(r, zone)];
        assert SetKey(sets[i]) == KeyOf(r, zone);
      }
    }
  }

  function SortedSet(s: RecordSet): RecordSet {
    s.(values := Sort(s.values, ValueKey))
  }

  lemma SortedSetDescribes(f: Family, zone: string, records: seq<Record>, s: RecordSet)
    requires Describes(f, zone, records, s)
    ensures Describes(f, zone, records, SortedSet(s)) && Sorted(SortedSet(s).values, ValueKey) && SetKey(SortedSet(s)) == SetKey(s)
  {
    SortIsSorted(s.values, ValueKey);
  }

  lemma Twice(s: seq<RecordSet>, i: nat, j: nat)
    requires i < j < |s| && s[i] == s[j]
    ensures multiset(s)[s[i]] >= 2
  {
    assert s == s[..i] + ([s[i]] + (s[i + 1..j] + ([s[j]] + s[j + 1..])));
  }

  /** Sorting keeps one set per key. */
  lemma DistinctAfterSort(sets: seq<RecordSet>)
    requires Distinct(sets)
    ensures Distinct(Sort(sets, SetKey))
  {
    SortIsSorted(sets, SetKey);
    var r := Sort(sets, SetKey);
    forall i, j | 0 <= i < j < |r| ensures SetKey(r[i]) != SetKey(r[j]) {
      assert r[i] in multiset(r) && r[j] in multiset(r);
      var a :| 0 <= a < |sets| && sets[a] == r[i];
      var b :| 0 <= b < |sets| && sets[b] == r[j];
      EachOnce(sets, r[i]);
      if r[i] == r[j] {
        Twice(r, i, j);
      }
      assert a != b;
    }
  }

  lemma SortMembers(sets: seq<RecordSet>)
    ensures forall s :: s in Sort(sets, SetKey) <==> s in sets
  {
    SortIsSorted(sets, SetKey);
    assert forall s :: s in Sort(sets, SetKey) <==> s in multiset(Sort(sets, SetKey));
    assert forall s :: s in sets <==> s in multiset(sets);
  }

  ghost predicate Distinct(sets: seq<RecordSet>) {
    forall i, j :: 0 <= i < j < |sets| ==> SetKey(sets[i]) != SetKey(sets[j])
  }

  ghost predicate Finished(f: Family, zone: string, records: seq<Record>, sets: seq<RecordSet>) {
    forall i :: 0 <= i < |sets| ==> Describes(f, zone, records, sets[i]) && Sorted(sets[i].values, ValueKey)
  }

  ghost predicate Covers(zone: string, records: seq<Record>, sets: seq<RecordSet>) {
    forall r :: r in records && RecordName(r.name, zone).Some? ==> exists s :: s in sets && SetKey(s) == KeyOf(r, zone)
  }

  lemma CanonicalAfterSort(f: Family, zone: string, records: seq<Record>, sets: seq<RecordSet>)
    requires Distinct(sets) && Finished(f, zone, records, sets) && Covers(zone, records, sets)
    ensures Canonical(f, zone, records, Sort(sets, SetKey))
  {
    SortMembers(sets);
    DistinctAfterSort(sets);
    SortIsSorted(sets, SetKey);
    var result := Sort(sets, SetKey);
    forall s | s in result ensures Sorted(s.values, ValueKey) && Describes(f, zone, records, s) {
      assert s in sets;
    }
    forall r | r in records && RecordName(r.name, zone).Some? ensures exists s :: s in result && SetKey(s) == KeyOf(r, zone) {
      var s :| s in sets && SetKey(s) == KeyOf(r, zone);
      assert s in result;
    }
  }

  ghost predicate SortedFrom(sets: seq<RecordSet>, done: seq<RecordSet>) {
    |done| <= |sets| && forall k :: 0 <= k < |done| ==> done[k] == SortedSet(sets[k])
  }

  lemma SortedSetsFinish(f: Family, zone: string, records: seq<Record>, sets: seq<RecordSet>, groups: map<Key, nat>, done: seq<RecordSet>)
    requires Grouped(f, zone, records, sets, groups) && SortedFrom(sets, done) && |done| == |sets|
    ensures Canonical(f, zone, records, Sort(done, SetKey))
  {
    forall k | 0 <= k < |done| ensures Describes(f, zone, records, done[k]) && Sorted(done[k].values, ValueKey) && SetKey(done[k]) == SetKey(sets[k]) {
      SortedSetDescribes(f, zone, records, sets[k]);
    }
    ReadyToSort(zone, records, sets, groups, done);
    CanonicalAfterSort(f, zone, records, done);
  }

  /** Checks every set and sorts its values. */
  method SortValues(sets: seq<RecordSet>) returns (done: Option<seq<RecordSet>>)
    ensures done.Some? <==> forall k :: 0 <= k < |sets| ==> SetFits(sets[k])
    ensures done.Some? ==> SortedFrom(sets, done.value) && |done.value| == |sets|
  {
    var sorted: seq<RecordSet> := [];
    var i := 0;
    while i < |sets|
      invariant 0 <= i <= |sets| && |sorted| == i && SortedFrom(sets, sorted)
      invariant forall k :: 0 <= k < i ==> SetFits(sets[k])
    {
      if !SetFits(sets[i]) {
        return None;
      }
      sorted := sorted + [SortedSet(sets[i])];
      i := i + 1;
    }
    return Some(sorted);
  }

  /** Then the sets themselves are sorted. */
  method Canonicalize(f: Family, zone: string, ghost records: seq<Record>, sets: seq<RecordSet>, ghost groups: map<Key, nat>)
    returns (result: Option<seq<RecordSet>>)
    requires Grouped(f, zone, records, sets, groups)
    ensures result.Some? <==> forall r :: r in records ==> Storable(f, r)
    ensures result.Some? ==> Canonical(f, zone, records, result.value)
  {
    AllFit(f, zone, records, sets, groups);
    var done := SortValues(sets);
    if done.None? {
      return None;
    }
    SortedSetsFinish(f, zone, records, sets, groups, done.value);
    return Some(Sort(done.value, SetKey));
  }

  lemma ReadyToSort(zone: string, records: seq<Record>, sets: seq<RecordSet>, groups: map<Key, nat>, done: seq<RecordSet>)
    requires Indexed(sets, groups) && AllKeyed(zone, records, groups)
    requires |done| == |sets| && forall k :: 0 <= k < |done| ==> SetKey(done[k]) == SetKey(sets[k])
    ensures Distinct(done) && Covers(zone, records, done)
  {
    forall i, j | 0 <= i < j < |done| ensures SetKey(done[i]) != SetKey(done[j]) {
      assert groups[SetKey(sets[i])] == i && groups[SetKey(sets[j])] == j;
    }
    forall r | r in records && RecordName(r.name, zone).Some? ensures exists s :: s in done && SetKey(s) == KeyOf(r, zone) {
      var i := groups[KeyOf(r, zone)];
      assert done[i] in done && SetKey(done[i]) == KeyOf(r, zone);
    }
  }

  /**
   Reading a zone's records: refused exactly when they are not acceptable, a condition without any
   order, and otherwise their canonical record sets.
   */
  method Decode(f: Family, zone: string, records: seq<Record>) returns (result: Option<seq<RecordSet>>)
    ensures result.Some? <==> Acceptable(f, zone, multiset(records))
    ensures result.Some? ==> Canonical(f, zone, records, result.value)
  {
    assert |multiset(records)| == |records|;
    assert forall r :: r in records <==> r in multiset(records);
    if |records| > RECORDS_MAX {
      return None;
    }
    var ok, sets, groups := Group(f, zone, records);
    if !ok {
      return None;
    }
    result := Canonicalize(f, zone, records, sets, groups);
  }

  /** Two readings of the same records, in whatever order they arrive. */
  method DecodeTwice(f: Family, zone: string, a: seq<Record>, b: seq<Record>) returns (x: Option<seq<RecordSet>>, y: Option<seq<RecordSet>>)
    requires multiset(a) == multiset(b)
    ensures x == y
  {
    x := Decode(f, zone, a);
    y := Decode(f, zone, b);
    if x.Some? {
      CanonicalUnique(f, zone, a, b, x.value, y.value);
    }
  }

  /** No value is lost, added or moved to another set. */
  lemma ValuesConserved(f: Family, zone: string, records: seq<Record>, sets: seq<RecordSet>, s: RecordSet)
    requires Canonical(f, zone, records, sets) && s in sets
    ensures multiset(s.values) == multiset(ValuesOf(records, zone, SetKey(s))) && s.values != []
  {
    assert Describes(f, zone, records, s);
  }
}
