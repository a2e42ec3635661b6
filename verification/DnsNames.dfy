/**
 What names mean to a DNS reader, stated without its own steps: letter case and one final dot make no difference,
 a relative name is the absolute one it abbreviates, and what each accepted record looks like.
 */
module DnsNames {
  import opened Options
  import opened Text
  import opened Dns

  /** The zone's own name, or a name below it. */
  ghost predicate Below(name: string, zone: string) {
    name == zone || exists p :: name == p + ("." + zone)
  }

  lemma BelowExactly(name: string, zone: string)
    ensures InZone(name, zone) <==> Below(name, zone)
  {
    var suffix := "." + zone;
    if HasSuffix(name, suffix) {
      var n := |name| - |suffix|;
      assert name == name[..n] + suffix;
    }
    forall p | name == p + suffix ensures HasSuffix(name, suffix) {
      assert name[|p|..] == suffix;
    }
  }

  /** A name ends in a dot. */
  predicate Dotted(s: string) {
    s != "" && s[|s| - 1] == '.'
  }

  lemma DotsTrimmed(s: string)
    ensures HasSuffix(s, ".") <==> Dotted(s)
    ensures TrimDot(s) == if Dotted(s) then s[..|s| - 1] else s
  {
    if s != "" {
      assert s[|s| - 1..] == [s[|s| - 1]];
    }
  }

  // ---- Case and the final dot ----

  /** The same letters, whatever their case. */
  ghost predicate SameLetters(a: string, b: string) {
    Lower(a) == Lower(b)
  }

  lemma SameTrimmed(a: string, b: string)
    requires SameLetters(a, b)
    ensures Dotted(a) == Dotted(b) && Lower(TrimDot(a)) == Lower(TrimDot(b))
  {
    DotsTrimmed(a);
    DotsTrimmed(b);
    assert |a| == |Lower(a)| == |b|;
    forall i | 0 <= i < |a| ensures LowerChar(a[i]) == LowerChar(b[i]) && (a[i] == '.' <==> b[i] == '.') {
      assert Lower(a)[i] == LowerChar(a[i]) && Lower(b)[i] == LowerChar(b[i]);
    }
  }

  lemma AtSign(a: string, b: string)
    requires SameLetters(a, b) && a == "@"
    ensures b == "@"
  {
    assert |b| == |Lower(b)| == |Lower(a)| == 1;
    assert Lower(b)[0] == LowerChar(b[0]) && Lower(a)[0] == LowerChar('@');
    assert b == [b[0]];
  }

  /** Letter case makes no difference to any name. */
  lemma CaseIgnored(a: string, b: string, zone: string)
    requires SameLetters(a, b)
    ensures ZoneName(a) == ZoneName(b) && RecordName(a, zone) == RecordName(b, zone)
  {
    SameTrimmed(a, b);
    DotsTrimmed(a);
    DotsTrimmed(b);
    if a == "@" {
      AtSign(a, b);
    }
    if b == "@" {
      AtSign(b, a);
    }
  }

  /** One final dot makes no difference to a zone's name. */
  lemma FinalDotIgnored(raw: string)
    requires !Dotted(raw)
    ensures ZoneName(raw + ".") == ZoneName(raw)
  {
    DotsTrimmed(raw);
    DotsTrimmed(raw + ".");
    assert (raw + ".")[..|raw|] == raw;
  }

  // ---- Owner names ----

  /**
   An owner is the zone for the at sign; a name at or below the zone as it stands; and otherwise a name below it, unless
   its final dot says that it is absolute.
   */
  lemma OwnerExactly(raw: string, zone: string, name: string)
    ensures RecordName(raw, zone) == Some(name) <==>
            if raw == "@" then name == zone
            else
              var given := Lower(TrimDot(raw));
              OwnerForm(name) && if Below(given, zone) then name == given else !Dotted(raw) && name == given + "." + zone
  {
    DotsTrimmed(raw);
    BelowExactly(Lower(TrimDot(raw)), zone);
  }

  lemma LowerJoins(a: string, b: string)
    ensures Lower(a + b) == Lower(a) + Lower(b)
  {
  }

  lemma ZoneLowered(zone: string)
    requires ZoneForm(zone)
    ensures Lower("." + zone) == "." + zone
  {
    ZoneChars(zone);
    LowerFixed("." + zone);
  }

  /** The absolute form of a relative name, without its final dot. */
  lemma AbsoluteGiven(raw: string, zone: string)
    requires ZoneForm(zone)
    ensures var long := raw + "." + zone + "."; Dotted(long) && Lower(TrimDot(long)) == Lower(raw) + ("." + zone)
  {
    var long := raw + "." + zone + ".";
    DotsTrimmed(long);
    assert long[..|long| - 1] == raw + ("." + zone);
    LowerJoins(raw, "." + zone);
    ZoneLowered(zone);
  }

  /** A relative name and the absolute one it abbreviates are the same owner. */
  lemma RelativeIsAbsolute(raw: string, zone: string)
    requires ZoneForm(zone) && raw != "@" && !Dotted(raw) && !Below(Lower(raw), zone)
    ensures RecordName(raw, zone) == RecordName(raw + "." + zone + ".", zone)
  {
    var long, name := raw + "." + zone + ".", Lower(raw) + ("." + zone);
    AbsoluteGiven(raw, zone);
    DotsTrimmed(raw);
    assert Lower(raw) + "." + zone == name;
    assert Below(name, zone);
    OwnerExactly(raw, zone, name);
    OwnerExactly(long, zone, name);
    OnlyOwner(raw, zone, name);
    OnlyOwner(long, zone, name);
  }

  /** A name other than the at sign that is not this owner is none. */
  lemma OnlyOwner(raw: string, zone: string, name: string)
    requires raw != "@" && var given := Lower(TrimDot(raw)); name == if Below(given, zone) then given else given + "." + zone
    ensures RecordName(raw, zone).Some? ==> RecordName(raw, zone) == Some(name)
  {
    BelowExactly(Lower(TrimDot(raw)), zone);
  }

  // ---- Labels and records ----

  /** One to 63 lower-case letters and digits, with dashes only inside. */
  predicate LabelText(l: string) {
    && 1 <= |l| <= 63 && l[0] != '-' && l[|l| - 1] != '-'
    && forall i :: 0 <= i < |l| ==> 'a' <= l[i] <= 'z' || '0' <= l[i] <= '9' || l[i] == '-'
  }

  /** The same, with underscores anywhere. */
  predicate ServiceText(l: string) {
    && 1 <= |l| <= 63 && l[0] != '-' && l[|l| - 1] != '-'
    && forall i :: 0 <= i < |l| ==> 'a' <= l[i] <= 'z' || '0' <= l[i] <= '9' || l[i] == '-' || l[i] == '_'
  }

  lemma LabelsInChars(l: string)
    ensures Label(l) <==> LabelText(l)
    ensures OwnerLabel(l) <==> ServiceText(l)
  {
    var m := Mapped(l, c => if c == '_' then 'a' else c);
    assert |m| == |l|;
  }

  /** A zone has at least two labels and at most 253 characters. */
  lemma ZonesInChars(name: string)
    ensures ZoneForm(name) <==> 3 <= |name| <= 253 && '.' in name && forall l :: l in Split(name, '.') ==> LabelText(l)
  {
    forall l ensures Label(l) <==> LabelText(l) {
      LabelsInChars(l);
    }
  }

  /** An owner name has at most 253 characters, and an asterisk only as its whole first label. */
  lemma OwnersInChars(name: string)
    ensures OwnerForm(name) <==>
            |name| <= 253 && var labels := Split(name, '.'); (labels[0] == "*" || ServiceText(labels[0]))
                                                             && forall i :: 0 < i < |labels| ==> ServiceText(labels[i])
  {
    var labels := Split(name, '.');
    forall i | 0 <= i < |labels| ensures OwnerLabel(labels[i]) <==> ServiceText(labels[i]) {
      LabelsInChars(labels[i]);
    }
  }

  /** What is accepted of one record: its owner, type, time to live, data and priority within their limits. */
  lemma RecordsInRows(f: Family, zone: string, r: Record)
    ensures Groupable(f, zone, r) && Storable(f, r) <==>
            && r.valid && RecordName(r.name, zone).Some? && (f.Cloud? ==> r.immutable.Some?)
            && var kind, ttl := Upper(r.kind), if f.Cloud? then r.ttl else Some(f.ttl);
            && 1 <= |kind| <= 16 && 'A' <= kind[0] <= 'Z'
            && (forall i :: 0 <= i < |kind| ==> 'A' <= kind[i] <= 'Z' || '0' <= kind[i] <= '9')
            && (ttl.Some? ==> 0 <= ttl.value < 0x8000_0000)
            && |r.value.data| <= 8192 && '\0' !in r.value.data && |r.value.priority| <= 10
  {
  }
}
