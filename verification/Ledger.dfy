/**
 The ledger of collaboration events: allocating an event in a conversation, finalizing it, and the loop that
 validates the whole ledger. Each event carries the texts of its four companion files, and a final one the
 digests under which they were sealed.
 */
module Ledger {
  import opened Options
  import opened Frontmatter

  const MAX_RECORDS := 10000

  datatype Kind = Conversation | Input | Research | Commands

  datatype Format = First | Second

  datatype Event = Event(
    id: string, conversation: string, sequence: int, supersedes: Option<string>, format: Format,
    recorded: string, finalized: Option<string>, files: Files, digests: Option<Files>)

  datatype Files = Files(conversation: string, input: string, research: string, commands: string) {
    function Text(k: Kind): string {
      match k
      case Conversation => conversation
      case Input => input
      case Research => research
      case Commands => commands
    }
  }

  /** How a time stamp and a file are read, and what a companion's content is checked for. */
  datatype Rules = Rules(instant: string -> Option<int>, read: string -> Option<Document>, content: (Kind, Document) -> bool)

  /** Files are read as frontmatter. */
  ghost predicate Genuine(rules: Rules) {
    forall text :: rules.read(text) == ParseDocument(text)
  }

  // ---- One event ----

  predicate HexDigit(c: char) {
    '0' <= c <= '9' || 'a' <= c <= 'f'
  }

  /** The canonical form of a random identifier. */
  predicate Uuid(s: string) {
    && |s| == 36
    && (forall i :: 0 <= i < 36 ==> if i == 8 || i == 13 || i == 18 || i == 23 then s[i] == '-' else HexDigit(s[i]))
    && s[14] == '4' && (s[19] == '8' || s[19] == '9' || s[19] == 'a' || s[19] == 'b')
  }

  function FormatName(f: Format): string {
    match f
    case First => "sama-local-v1"
    case Second => "sama-local-v2"
  }

  function KindName(k: Kind): string {
    match k
    case Conversation => "conversation"
    case Input => "input"
    case Research => "research"
    case Commands => "commands"
  }

  predicate Says(m: Values, key: string, s: string) {
    key in m && m[key] == Words(s)
  }

  /** Equality with a number as the language has it: true is one and false is zero. */
  predicate Counts(m: Values, key: string, n: int) {
    key in m && (m[key] == Number(n) || (m[key] == Flag(true) && n == 1) || (m[key] == Flag(false) && n == 0))
  }

  /** The required metadata of a companion. */
  predicate Labelled(m: Values, e: Event, k: Kind) {
    && Says(m, "format", FormatName(e.format))
    && Says(m, "event_id", e.id)
    && Says(m, "conversation_id", e.conversation)
    && Counts(m, "sequence", e.sequence)
    && Says(m, "recorded_at", e.recorded)
    && Says(m, "kind", KindName(k))
  }

  predicate CompanionOk(rules: Rules, e: Event, k: Kind, complete: bool) {
    match rules.read(e.files.Text(k))
    case None => false
    case Some(d) => Labelled(d.values, e, k) && (e.format == Second && complete ==> rules.content(k, d))
  }

  predicate CompanionsOk(rules: Rules, e: Event, complete: bool) {
    CompanionOk(rules, e, Conversation, complete) && CompanionOk(rules, e, Input, complete)
    && CompanionOk(rules, e, Research, complete) && CompanionOk(rules, e, Commands, complete)
  }

  /** The times of an event, and the seal of a final one. */
  predicate StateOk(rules: Rules, e: Event) {
    && rules.instant(e.recorded).Some?
    && match e.finalized
       case None => e.digests == None
       case Some(t) =>
         && rules.instant(t).Some? && rules.instant(t).value >= rules.instant(e.recorded).value
         && e.digests == Some(e.files)
  }

  /** What is checked of an event by itself. */
  predicate AloneOk(rules: Rules, e: Event, drafts: bool, complete: Option<string>) {
    && Uuid(e.id) && Uuid(e.conversation) && (drafts || e.finalized.Some?) && StateOk(rules, e)
    && CompanionsOk(rules, e, e.finalized.Some? || complete == Some(e.id))
  }

  function Check(rules: Rules, drafts: bool, complete: Option<string>): Event -> bool {
    e => AloneOk(rules, e, drafts, complete)
  }

  // ---- The order of events ----

  /** The numbers of a conversation's events, in their order. */
  function Numbers(events: seq<Event>, conversation: string): seq<int> {
    if events == [] then []
    else
      var e := events[|events| - 1];
      Numbers(events[..|events| - 1], conversation) + if e.conversation == conversation then [e.sequence] else []
  }

  ghost predicate Known(events: seq<Event>, id: string) {
    exists i :: 0 <= i < |events| && events[i].id == id
  }

  /** A new identifier, the next number of its conversation, and a correction only of an earlier event. */
  ghost predicate Follows(before: seq<Event>, e: Event) {
    && !Known(before, e.id)
    && (e.supersedes.Some? ==> Known(before, e.supersedes.value))
    && e.sequence == 1 + |Numbers(before, e.conversation)|
  }

  ghost predicate InOrder(events: seq<Event>) {
    forall i :: 0 <= i < |events| ==> Follows(events[..i], events[i])
  }

  /** Every event in its place, and each passing a check of its own. */
  ghost predicate Passes(check: Event -> bool, events: seq<Event>) {
    InOrder(events) && forall i :: 0 <= i < |events| ==> check(events[i])
  }

  lemma OrderAppends(events: seq<Event>, e: Event)
    ensures InOrder(events + [e]) <==> InOrder(events) && Follows(events, e)
  {
    var all := events + [e];
    assert forall i :: 0 <= i <= |events| ==> all[..i] == events[..i];
    assert events[..|events|] == events;
    assert forall i :: 0 <= i < |events| ==> all[i] == events[i];
    assert all[|events|] == e;
  }

  lemma PassesAppends(check: Event -> bool, events: seq<Event>, e: Event)
    ensures Passes(check, events + [e]) <==> Passes(check, events) && Follows(events, e) && check(e)
  {
    OrderAppends(events, e);
    var all := events + [e];
    assert forall i :: 0 <= i < |events| ==> all[i] == events[i];
    assert all[|events|] == e;
  }

  lemma PassesPrefix(check: Event -> bool, events: seq<Event>, n: nat)
    requires n <= |events|
    ensures Passes(check, events) ==> Passes(check, events[..n])
  {
    assert forall i :: 0 <= i < n ==> events[..n][..i] == events[..i] && events[..n][i] == events[i];
  }

  lemma NumbersAppend(events: seq<Event>, e: Event, c: string)
    ensures Numbers(events + [e], c) == Numbers(events, c) + if e.conversation == c then [e.sequence] else []
  {
    assert (events + [e])[..|events + [e]| - 1] == events;
  }

  lemma KnownAppends(events: seq<Event>, e: Event, id: string)
    ensures Known(events + [e], id) <==> Known(events, id) || id == e.id
  {
    var all := events + [e];
    assert all[|events|] == e;
    if Known(events, id) {
      var i :| 0 <= i < |events| && events[i].id == id;
      assert all[i].id == id;
    }
  }

  /** The identifiers and the last numbers that the validating loop has gathered. */
  ghost predicate Gathered(events: seq<Event>, seen: set<string>, sequences: map<string, int>) {
    && (forall id :: id in seen <==> Known(events, id))
    && forall c :: (if c in sequences then sequences[c] else 0) == |Numbers(events, c)|
  }

  lemma GatherOne(events: seq<Event>, seen: set<string>, sequences: map<string, int>, e: Event)
    requires Gathered(events, seen, sequences) && Follows(events, e)
    ensures Gathered(events + [e], seen + {e.id}, sequences[e.conversation := e.sequence])
  {
    forall id ensures id in seen + {e.id} <==> Known(events + [e], id) {
      KnownAppends(events, e, id);
    }
    var next := sequences[e.conversation := e.sequence];
    forall c ensures (if c in next then next[c] else 0) == |Numbers(events + [e], c)| {
      NumbersAppend(events, e, c);
    }
  }

  /** The validating loop, with its set of identifiers and its last number for each conversation. */
  method Validate(check: Event -> bool, events: seq<Event>) returns (ok: bool)
    ensures ok <==> Passes(check, events)
  {
    var seen: set<string> := {};
    var sequences: map<string, int> := map[];
    var i := 0;
    while i < |events|
      invariant 0 <= i <= |events|
      invariant Passes(check, events[..i])
      invariant Gathered(events[..i], seen, sequences)
    {
      var e := events[i];
      var last := if e.conversation in sequences then sequences[e.conversation] else 0;
      assert events[..i + 1] == events[..i] + [e];
      PassesAppends(check, events[..i], e);
      if e.id in seen || (e.supersedes.Some? && e.supersedes.value !in seen) || e.sequence != last + 1 || !check(e) {
        PassesPrefix(check, events, i + 1);
        return false;
      }
      GatherOne(events[..i], seen, sequences, e);
      seen := seen + {e.id};
      sequences := sequences[e.conversation := e.sequence];
      i := i + 1;
    }
    assert events[..i] == events;
    return true;
  }

  // ---- Numbers ----

  /** 1, 2, and so on up to n. */
  function UpTo(n: nat): seq<int> {
    seq(n, i => i + 1)
  }

  /** The greatest number in a conversation, zero without any. */
  function Highest(events: seq<Event>, conversation: string): int {
    if events == [] then 0
    else
      var e, rest := events[|events| - 1], Highest(events[..|events| - 1], conversation);
      if e.conversation == conversation && e.sequence > rest then e.sequence else rest
  }

  /** In an ordered ledger every conversation is numbered one by one, so that the greatest number is its size. */
  lemma {:induction false} NumberedOneByOne(events: seq<Event>, conversation: string)
    requires InOrder(events)
    ensures Numbers(events, conversation) == UpTo(|Numbers(events, conversation)|)
    ensures Highest(events, conversation) == |Numbers(events, conversation)|
    decreases |events|
  {
    if events != [] {
      var rest, e := events[..|events| - 1], events[|events| - 1];
      assert events == rest + [e];
      OrderAppends(rest, e);
      NumberedOneByOne(rest, conversation);
    }
  }

  // ---- Allocating an event ----

  function Meta(e: Event, k: Kind): Values {
    var m: Values := map["format" := Words(FormatName(e.format)), "event_id" := Words(e.id),
      "conversation_id" := Words(e.conversation), "sequence" := Number(e.sequence),
      "recorded_at" := Words(e.recorded), "kind" := Words(KindName(k))];
    if k == Research then m["concept" := Words("REPLACE_AI_CONCEPT")]["value_kind" := Words("mixed")] else m
  }

  /** The companions as they are written for a new event. */
  ghost function Written(e: Event, bodies: Files): Files {
    Files(RenderDocument(Meta(e, Conversation), bodies.conversation), RenderDocument(Meta(e, Input), bodies.input),
      RenderDocument(Meta(e, Research), bodies.research), RenderDocument(Meta(e, Commands), bodies.commands))
  }

  /** The arguments of a new event; what it allocates and reads from the clock is drawn for it. */
  datatype Request = Request(
    conversation: Option<string>, supersedes: Option<string>, bodies: Files, id: string, drawn: string, now: string)

  predicate Target(events: seq<Event>, id: string) {
    exists i :: 0 <= i < |events| && events[i].id == id && events[i].finalized.Some?
  }

  ghost function NewEvent(events: seq<Event>, r: Request): Event {
    var cid := if r.conversation.Some? then r.conversation.value else r.drawn;
    var e := Event(r.id, cid, 1 + Highest(events, cid), r.supersedes, Second, r.now, None, Files("", "", "", ""), None);
    e.(files := Written(e, r.bodies))
  }

  ghost function New(rules: Rules, events: seq<Event>, r: Request): Option<seq<Event>> {
    if (r.conversation.Some? && !Uuid(r.conversation.value))
      || !Passes(Check(rules, true, None), events) || |events| >= MAX_RECORDS
      || (r.supersedes.Some? && !Target(events, r.supersedes.value)) then None
    else Some(events + [NewEvent(events, r)])
  }

  /** Identifiers drawn are new and canonical, the clock prints a time that can be read, and files are frontmatter. */
  ghost predicate Drawn(rules: Rules, events: seq<Event>, r: Request) {
    Genuine(rules) && Uuid(r.id) && Uuid(r.drawn) && !Known(events, r.id) && CleanText(r.now) && rules.instant(r.now).Some?
  }

  lemma MetaKeys()
    ensures KeyForm("format") && KeyForm("event_id") && KeyForm("conversation_id") && KeyForm("sequence")
    ensures KeyForm("recorded_at") && KeyForm("kind") && KeyForm("concept") && KeyForm("value_kind")
  {
  }

  lemma MetaClean(e: Event, k: Kind)
    requires Uuid(e.id) && Uuid(e.conversation) && CleanText(e.recorded)
    ensures forall key :: key in Meta(e, k) ==> Clean(Meta(e, k)[key])
  {
    UuidClean(e.id);
    UuidClean(e.conversation);
    assert CleanText(FormatName(e.format));
    assert CleanText(KindName(k));
    assert CleanText("REPLACE_AI_CONCEPT") && CleanText("mixed");
  }

  lemma MetaReadable(e: Event, k: Kind)
    requires Uuid(e.id) && Uuid(e.conversation) && CleanText(e.recorded)
    ensures forall key :: key in Meta(e, k) ==> KeyForm(key) && Clean(Meta(e, k)[key])
  {
    MetaKeys();
    MetaClean(e, k);
  }

  lemma MetaLabels(e: Event, k: Kind)
    ensures Labelled(Meta(e, k), e, k)
  {
  }

  lemma UuidClean(s: string)
    requires Uuid(s)
    ensures CleanText(s)
  {
    forall i | 0 <= i < |s| ensures !Unescaped(s[i]) {
      assert s[i] == '-' || HexDigit(s[i]);
    }
  }

  /** The companions written for an event carry its metadata, whatever their bodies. */
  lemma WrittenOk(rules: Rules, e: Event, k: Kind, body: string)
    requires Genuine(rules) && Uuid(e.id) && Uuid(e.conversation) && CleanText(e.recorded)
    requires e.files.Text(k) == RenderDocument(Meta(e, k), body)
    ensures CompanionOk(rules, e, k, false)
  {
    MetaReadable(e, k);
    MetaLabels(e, k);
    CleanRoundTrip(Meta(e, k), body);
  }

  lemma NewEventOk(rules: Rules, events: seq<Event>, r: Request)
    requires r.conversation.Some? ==> Uuid(r.conversation.value)
    requires Drawn(rules, events, r)
    ensures AloneOk(rules, NewEvent(events, r), true, None)
  {
    var e := NewEvent(events, r);
    forall k ensures CompanionOk(rules, e, k, false) {
      assert Meta(e.(files := Files("", "", "", "")), k) == Meta(e, k);
      assert e.files.Text(k) == RenderDocument(Meta(e, k), r.bodies.Text(k));
      WrittenOk(rules, e, k, r.bodies.Text(k));
    }
  }

  /** What a new event adds to a valid ledger leaves it valid, with the next number of its conversation. */
  lemma NewKeeps(rules: Rules, events: seq<Event>, r: Request)
    requires New(rules, events, r).Some? && Drawn(rules, events, r)
    ensures Passes(Check(rules, true, None), New(rules, events, r).value)
    ensures var e := NewEvent(events, r); e.sequence == 1 + |Numbers(events, e.conversation)|
  {
    var e := NewEvent(events, r);
    NumberedOneByOne(events, e.conversation);
    if r.supersedes.Some? {
      var i :| 0 <= i < |events| && events[i].id == r.supersedes.value && events[i].finalized.Some?;
      assert Known(events, r.supersedes.value);
    }
    NewEventOk(rules, events, r);
    PassesAppends(Check(rules, true, None), events, e);
  }

  /** An event is added exactly to a valid ledger with room, in a canonical conversation, correcting only what is final. */
  lemma NewExactly(rules: Rules, events: seq<Event>, r: Request)
    ensures New(rules, events, r).Some? <==>
            && (r.conversation.Some? ==> Uuid(r.conversation.value))
            && Passes(Check(rules, true, None), events) && |events| < 10000
            && (r.supersedes.Some? ==> exists i :: 0 <= i < |events| && events[i].id == r.supersedes.value && events[i].finalized.Some?)
    ensures New(rules, events, r).Some? ==>
            var e := New(rules, events, r).value[|events|];
            && New(rules, events, r).value == events + [e]
            && e.id == r.id && e.conversation == (if r.conversation.Some? then r.conversation.value else r.drawn)
            && e.sequence == 1 + |Numbers(events, e.conversation)| && e.supersedes == r.supersedes && e.recorded == r.now
            && e.format == Second && e.finalized.None? && e.digests.None?
  {
    if New(rules, events, r).Some? {
      NumberedOneByOne(events, NewEvent(events, r).conversation);
    }
  }

  lemma ResearchLabels(e: Event)
    ensures Says(Meta(e, Research), "concept", "REPLACE_AI_CONCEPT") && Says(Meta(e, Research), "value_kind", "mixed")
  {
  }

  lemma CompanionReads(e: Event, k: Kind, body: string)
    requires Uuid(e.id) && Uuid(e.conversation) && CleanText(e.recorded)
    requires e.files.Text(k) == RenderDocument(Meta(e, k), body)
    ensures ParseDocument(e.files.Text(k)) == Some(Document(Meta(e, k), StripNewlines(body)))
  {
    MetaReadable(e, k);
    CleanRoundTrip(Meta(e, k), body);
  }

  lemma NewFiles(events: seq<Event>, r: Request, k: Kind)
    ensures var e := NewEvent(events, r); e.files.Text(k) == RenderDocument(Meta(e, k), r.bodies.Text(k))
  {
    var e := NewEvent(events, r);
    assert Meta(e.(files := Files("", "", "", "")), k) == Meta(e, k);
  }

  /** Each companion of a new event reads back as its metadata and its body. */
  lemma NewCompanions(rules: Rules, events: seq<Event>, r: Request, k: Kind)
    requires New(rules, events, r).Some? && Drawn(rules, events, r)
    ensures var e := New(rules, events, r).value[|events|];
      match ParseDocument(e.files.Text(k))
      case None => false
      case Some(d) =>
        && Labelled(d.values, e, k) && d.body == StripNewlines(r.bodies.Text(k))
        && (k == Research ==> Says(d.values, "concept", "REPLACE_AI_CONCEPT") && Says(d.values, "value_kind", "mixed"))
  {
    var e := NewEvent(events, r);
    NewFiles(events, r, k);
    CompanionReads(e, k, r.bodies.Text(k));
    MetaLabels(e, k);
    ResearchLabels(e);
  }

  // ---- Finalizing ----

  function Find(events: seq<Event>, id: string): (i: nat)
    ensures i <= |events| && (i < |events| ==> events[i].id == id) && forall j :: 0 <= j < i ==> events[j].id != id
  {
    if events == [] || events[0].id == id then 0 else 1 + Find(events[1..], id)
  }

  function Finalized(e: Event, now: string): Event {
    e.(finalized := Some(now), digests := Some(e.files))
  }

  ghost function Finalize(rules: Rules, events: seq<Event>, id: string, now: string): Option<seq<Event>> {
    var i := Find(events, id);
    if i == |events| || events[i].finalized.Some? || events[i].format != Second then None
    else Replaced(Check(rules, true, Some(id)), Check(rules, true, None), events, i, Finalized(events[i], now))
  }

  /** The ledger with one event replaced, if it passes one check before and another one afterwards. */
  ghost function Replaced(first: Event -> bool, second: Event -> bool, events: seq<Event>, i: nat, e: Event): Option<seq<Event>>
    requires i < |events|
  {
    if Passes(first, events) && Passes(second, events[i := e]) then Some(events[i := e]) else None
  }

  lemma {:induction false} NumbersIgnoreState(events: seq<Event>, i: nat, e: Event, c: string)
    requires i < |events| && e.conversation == events[i].conversation && e.sequence == events[i].sequence
    ensures Numbers(events[i := e], c) == Numbers(events, c)
    decreases |events|
  {
    var n := |events| - 1;
    if i < n {
      assert events[i := e][..n] == events[..n][i := e];
      NumbersIgnoreState(events[..n], i, e, c);
    } else {
      assert events[i := e][..n] == events[..n];
    }
  }

  /** An event's place does not depend on its files or its state, nor on those of the events before it. */
  lemma OrderIgnoresState(events: seq<Event>, i: nat, e: Event)
    requires i < |events| && InOrder(events) && e.id == events[i].id && e.conversation == events[i].conversation
    requires e.sequence == events[i].sequence && e.supersedes == events[i].supersedes
    ensures InOrder(events[i := e])
  {
    var next := events[i := e];
    forall j | 0 <= j < |next| ensures Follows(next[..j], next[j]) {
      assert Follows(events[..j], events[j]);
      if i < j {
        assert next[..j] == events[..j][i := e];
        NumbersIgnoreState(events[..j], i, e, events[j].conversation);
      } else {
        assert next[..j] == events[..j];
      }
      assert forall k :: 0 <= k < j ==> next[..j][k].id == events[..j][k].id;
      if events[j].supersedes.Some? {
        var k :| 0 <= k < j && events[..j][k].id == events[j].supersedes.value;
        assert next[..j][k].id == events[j].supersedes.value;
      }
    }
  }

  lemma SealedOk(rules: Rules, e: Event, now: string)
    requires Check(rules, true, Some(e.id))(e) && e.finalized.None? && rules.instant(now).Some?
    ensures Check(rules, true, None)(Finalized(e, now)) <==> rules.instant(now).value >= rules.instant(e.recorded).value
  {
    var f := Finalized(e, now);
    assert forall k :: CompanionOk(rules, f, k, true) == CompanionOk(rules, e, k, true);
  }

  lemma OthersAlike(rules: Rules, id: string)
    ensures forall x: Event :: x.id != id && Check(rules, true, Some(id))(x) ==> Check(rules, true, None)(x)
  {
  }

  lemma IdsApart(events: seq<Event>, i: nat, j: nat)
    requires InOrder(events) && i < j < |events|
    ensures events[i].id != events[j].id
  {
    assert Follows(events[..j], events[j]) && events[..j][i].id == events[i].id;
  }

  lemma ReplaceOne(first: Event -> bool, second: Event -> bool, events: seq<Event>, i: nat, e: Event)
    requires i < |events| && e.id == events[i].id && e.conversation == events[i].conversation
    requires e.sequence == events[i].sequence && e.supersedes == events[i].supersedes
    requires Passes(first, events) && forall x: Event :: x.id != e.id && first(x) ==> second(x)
    ensures Replaced(first, second, events, i, e).Some? <==> second(e)
  {
    var next := events[i := e];
    OrderIgnoresState(events, i, e);
    forall j | 0 <= j < |next| && j != i ensures second(next[j]) {
      assert first(events[j]) && next[j] == events[j];
      if j < i {
        IdsApart(events, j, i);
      } else {
        IdsApart(events, i, j);
      }
    }
    assert next[i] == e;
  }

  /** Finalizing a draft of a ledger that passes its first check fails exactly when the clock went back. */
  lemma FinalizeExactly(rules: Rules, events: seq<Event>, id: string, now: string)
    requires rules.instant(now).Some?
    requires var i := Find(events, id); i < |events| && events[i].finalized.None? && events[i].format == Second
    requires Passes(Check(rules, true, Some(id)), events)
    ensures Finalize(rules, events, id, now).Some?
      <==> rules.instant(now).value >= rules.instant(events[Find(events, id)].recorded).value
  {
    var i := Find(events, id);
    var first, second := Check(rules, true, Some(id)), Check(rules, true, None);
    assert first(events[i]);
    SealedOk(rules, events[i], now);
    OthersAlike(rules, id);
    ReplaceOne(first, second, events, i, Finalized(events[i], now));
  }

  /** An event can be finalized exactly if it is a draft of the second format in a ledger complete enough, and the clock went on. */
  lemma FinalizesExactly(rules: Rules, events: seq<Event>, id: string, now: string)
    requires rules.instant(now).Some?
    ensures var i := Find(events, id);
      && (Finalize(rules, events, id, now).Some? <==>
            && i < |events| && events[i].finalized.None? && events[i].format == Second
            && Passes(Check(rules, true, Some(id)), events)
            && rules.instant(now).value >= rules.instant(events[i].recorded).value)
      && (Finalize(rules, events, id, now).Some? ==>
            Finalize(rules, events, id, now).value == events[i := events[i].(finalized := Some(now), digests := Some(events[i].files))])
  {
    var i := Find(events, id);
    if i < |events| && events[i].finalized.None? && events[i].format == Second && Passes(Check(rules, true, Some(id)), events) {
      FinalizeExactly(rules, events, id, now);
    }
  }

  // ---- Runs ----

  /** Allocating and finalizing, and somebody else changing the files of an event at any time. */
  datatype Step = Create(request: Request) | Seal(id: string, now: string) | Rewrite(index: nat, files: Files)

  ghost function Apply(rules: Rules, events: seq<Event>, step: Step): seq<Event> {
    match step
    case Create(r) => (match New(rules, events, r) case Some(next) => next case None => events)
    case Seal(id, now) => (match Finalize(rules, events, id, now) case Some(next) => next case None => events)
    case Rewrite(i, files) => if i < |events| then events[i := events[i].(files := files)] else events
  }

  ghost predicate Enabled(rules: Rules, events: seq<Event>, step: Step) {
    step.Create? ==> Drawn(rules, events, step.request)
  }

  ghost predicate Runs(rules: Rules, events: seq<Event>, steps: seq<Step>)
    decreases |steps|
  {
    steps != [] ==> Enabled(rules, events, steps[0]) && Runs(rules, Apply(rules, events, steps[0]), steps[1..])
  }

  ghost function After(rules: Rules, events: seq<Event>, steps: seq<Step>): seq<Event>
    decreases |steps|
  {
    if steps == [] then events else After(rules, Apply(rules, events, steps[0]), steps[1..])
  }

  /** Every correction is of an event that was final when it was made, and still is. */
  ghost predicate CorrectsFinal(events: seq<Event>) {
    forall i :: 0 <= i < |events| && events[i].supersedes.Some?
      ==> exists j :: 0 <= j < i && events[j].id == events[i].supersedes.value && events[j].finalized.Some?
  }

  /** An event keeps its identity, and once it is final everything but its files. */
  ghost predicate Continues(e: Event, f: Event) {
    && f.(files := e.files, finalized := e.finalized, digests := e.digests) == e
    && (e.finalized.Some? ==> f.finalized == e.finalized && f.digests == e.digests)
  }

  lemma StepContinues(rules: Rules, events: seq<Event>, step: Step)
    ensures var next := Apply(rules, events, step);
      |events| <= |next| && forall i :: 0 <= i < |events| ==> Continues(events[i], next[i])
  {
  }

  lemma CorrectionsContinue(events: seq<Event>, next: seq<Event>)
    requires CorrectsFinal(events) && |events| == |next| && forall i :: 0 <= i < |events| ==> Continues(events[i], next[i])
    ensures CorrectsFinal(next)
  {
    forall i | 0 <= i < |next| && next[i].supersedes.Some?
      ensures exists j :: 0 <= j < i && next[j].id == next[i].supersedes.value && next[j].finalized.Some?
    {
      assert Continues(events[i], next[i]);
      var j :| 0 <= j < i && events[j].id == events[i].supersedes.value && events[j].finalized.Some?;
      assert Continues(events[j], next[j]);
    }
  }

  lemma NewCorrects(rules: Rules, events: seq<Event>, r: Request)
    requires New(rules, events, r).Some? && CorrectsFinal(events)
    ensures CorrectsFinal(New(rules, events, r).value)
  {
    var next := New(rules, events, r).value;
    forall i | 0 <= i < |next| && next[i].supersedes.Some?
      ensures exists j :: 0 <= j < i && next[j].id == next[i].supersedes.value && next[j].finalized.Some?
    {
      if i < |events| {
        var j :| 0 <= j < i && events[j].id == events[i].supersedes.value && events[j].finalized.Some?;
        assert next[j] == events[j];
      } else {
        var j :| 0 <= j < |events| && events[j].id == r.supersedes.value && events[j].finalized.Some?;
        assert next[j] == events[j];
      }
    }
  }

  lemma StepOrders(rules: Rules, events: seq<Event>, step: Step)
    requires Enabled(rules, events, step) && InOrder(events) && CorrectsFinal(events)
    ensures var next := Apply(rules, events, step); InOrder(next) && CorrectsFinal(next)
  {
    StepContinues(rules, events, step);
    match step {
      case Create(r) =>
        if New(rules, events, r).Some? {
          NewKeeps(rules, events, r);
          NewCorrects(rules, events, r);
        }
      case Seal(id, now) =>
        if Finalize(rules, events, id, now).Some? {
          CorrectionsContinue(events, Finalize(rules, events, id, now).value);
        }
      case Rewrite(i, files) =>
        if i < |events| {
          OrderIgnoresState(events, i, events[i].(files := files));
          CorrectionsContinue(events, Apply(rules, events, step));
        }
    }
  }

  /**
   Over every run, whatever somebody else writes into the files: identifiers are unique, each conversation is
   numbered one by one, and corrections are of earlier events that are final.
   */
  lemma {:induction false} RunOrders(rules: Rules, events: seq<Event>, steps: seq<Step>)
    requires Runs(rules, events, steps) && InOrder(events) && CorrectsFinal(events)
    ensures var end := After(rules, events, steps);
      && InOrder(end) && CorrectsFinal(end)
      && |events| <= |end| && forall i :: 0 <= i < |events| ==> Continues(events[i], end[i])
    decreases |steps|
  {
    if steps != [] {
      var next := Apply(rules, events, steps[0]);
      StepOrders(rules, events, steps[0]);
      StepContinues(rules, events, steps[0]);
      RunOrders(rules, next, steps[1..]);
      var end := After(rules, events, steps);
      forall i | 0 <= i < |events| ensures Continues(events[i], end[i]) {
        assert Continues(events[i], next[i]) && Continues(next[i], end[i]);
      }
    }
  }

  /** From an empty ledger on, every conversation carries exactly the numbers 1 to its size, in order. */
  lemma ConversationsNumbered(rules: Rules, steps: seq<Step>, conversation: string)
    requires Runs(rules, [], steps)
    ensures var numbers := Numbers(After(rules, [], steps), conversation);
      numbers == UpTo(|numbers|)
    ensures CorrectsFinal(After(rules, [], steps))
  {
    RunOrders(rules, [], steps);
    NumberedOneByOne(After(rules, [], steps), conversation);
  }

  /** Whenever a later ledger validates, an event that was validated as final has the very files it had then. */
  lemma SealedFilesUnchanged(rules: Rules, events: seq<Event>, steps: seq<Step>, i: nat, drafts: bool)
    requires Runs(rules, events, steps) && CorrectsFinal(events) && i < |events| && events[i].finalized.Some?
    requires Passes(Check(rules, true, None), events)
    ensures var end := After(rules, events, steps);
      i < |end| && (Passes(Check(rules, drafts, None), end) ==> end[i] == events[i])
  {
    RunOrders(rules, events, steps);
    var end := After(rules, events, steps);
    assert Continues(events[i], end[i]);
    assert Check(rules, true, None)(events[i]);
    if Passes(Check(rules, drafts, None), end) {
      assert Check(rules, drafts, None)(end[i]);
    }
  }
}
