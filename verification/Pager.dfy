/**
 The nested Contabo pager: one snapshot page of one instance per call, its position carried in a
 printed cursor. Over a provider that answers the same while it is walked, following cursors from the
 empty one cost every snapshot page of every instance once and in order, or fails.
 */
module Pager {
  import opened Options
  import opened Text

  const PAGES_MAX := 100
  const PAGE_SIZE := 50
  const TOTAL_MAX := 5000
  const STEPS_MAX := 100

  /** What a response's next link names: nothing, a page of the same collection, or anything else. */
  datatype Link = NoLink | PageLink(page: nat) | OtherLink

  datatype Pagination = Pagination(page: int, pages: int, size: int, total: int)

  /** `valid` stands for the field checks of one row. */
  datatype Instance = Instance(id: string, account: string, valid: bool)

  datatype Snapshot = Snapshot(id: string, source: string, valid: bool)

  datatype InstanceResponse = InstanceResponse(data: Option<seq<Instance>>, pagination: Option<Pagination>, next: Option<Link>)

  datatype SnapshotResponse = SnapshotResponse(data: Option<seq<Snapshot>>, pagination: Option<Pagination>, next: Link)

  /** A provider that does not change while it is walked; None is a failed request. */
  datatype Provider = Provider(instances: int -> Option<InstanceResponse>, snapshots: (string, int) -> Option<SnapshotResponse>)

  datatype Sources = Sources(ids: seq<string>, more: bool)

  datatype Rows = Rows(rows: seq<Snapshot>, more: bool)

  /** Digits, not starting with zero, at most twenty. */
  predicate NumericId(s: string) {
    1 <= |s| <= 20 && Digits(s) && s[0] != '0'
  }

  // ---- One page of each collection ----

  predicate InstancesFit(r: InstanceResponse, page: int) {
    && r.data.Some? && r.pagination.Some? && r.next.Some?
    && var p := r.pagination.value;
    && p.page == page && 1 <= p.size <= PAGE_SIZE && |r.data.value| <= p.size
    && p.total >= 0 && 0 <= p.pages <= PAGES_MAX && !(p.total > 0 && p.pages < page)
    && (forall i :: 0 <= i < |r.data.value| ==> r.data.value[i].valid && NumericId(r.data.value[i].id))
    && (forall i :: 0 < i < |r.data.value| ==> r.data.value[i].account == r.data.value[0].account)
    && (match r.next.value
        case NoLink => p.pages <= page
        case PageLink(n) => n == page + 1 && p.pages > page && page != PAGES_MAX
        case OtherLink => false)
  }

  function InstancePage(p: Provider, page: int): (s: Option<Sources>)
    ensures s.Some? ==> 1 <= page <= PAGES_MAX && |s.value.ids| <= PAGE_SIZE && (s.value.more ==> page < PAGES_MAX)
    ensures s.Some? ==> forall i :: 0 <= i < |s.value.ids| ==> NumericId(s.value.ids[i])
  {
    if page < 1 || page > PAGES_MAX then None
    else
      var r := p.instances(page);
      if r.None? || !InstancesFit(r.value, page) then None
      else Some(Sources(seq(|r.value.data.value|, i requires 0 <= i < |r.value.data.value| => r.value.data.value[i].id), r.value.next.value.PageLink?))
  }

  predicate SnapshotsFit(r: SnapshotResponse, id: string, page: int) {
    && r.data.Some? && r.pagination.Some?
    && var p, data := r.pagination.value, r.data.value;
    && p.page == page && 1 <= p.size <= PAGE_SIZE && 0 <= p.pages <= PAGES_MAX && 0 <= p.total <= TOTAL_MAX && |data| <= PAGE_SIZE
    && (p.pages < page ==> page == 1 && p.pages == 0 && data == [])
    && (forall i :: 0 <= i < |data| ==> data[i].valid && data[i].source == id)
    && (forall i, j :: 0 <= i < j < |data| ==> data[i].id != data[j].id)
    && (match r.next
        case NoLink => p.pages <= page
        case PageLink(n) => n == page + 1 && p.pages > page
        case OtherLink => false)
  }

  function SnapshotRows(p: Provider, id: string, page: int): (s: Option<Rows>)
    ensures s.Some? ==> s.value.more ==> page < PAGES_MAX
  {
    var r := p.snapshots(id, page);
    if r.None? || !SnapshotsFit(r.value, id, page) then None else Some(Rows(r.value.data.value, r.value.next.PageLink?))
  }

  /** The loop over one page's instances: every row valid, one account throughout. */
  method CollectInstances(data: seq<Instance>) returns (ids: Option<seq<string>>)
    ensures ids.Some? <==> (forall i :: 0 <= i < |data| ==> data[i].valid && NumericId(data[i].id))
                           && (forall i :: 0 < i < |data| ==> data[i].account == data[0].account)
    ensures ids.Some? ==> |ids.value| == |data| && forall i :: 0 <= i < |data| ==> ids.value[i] == data[i].id
  {
    var account: Option<string> := None;
    var found: seq<string> := [];
    var i := 0;
    while i < |data|
      invariant 0 <= i <= |data| && |found| == i
      invariant account == if i == 0 then None else Some(data[0].account)
      invariant forall k :: 0 <= k < i ==> data[k].valid && NumericId(data[k].id) && found[k] == data[k].id
      invariant forall k :: 0 < k < i ==> data[k].account == data[0].account
    {
      if account.Some? && account.value != data[i].account {
        return None;
      }
      account := Some(data[i].account);
      if !data[i].valid || !NumericId(data[i].id) {
        return None;
      }
      found := found + [data[i].id];
      i := i + 1;
    }
    return Some(found);
  }

  /** The loop over one page's snapshots: every row valid, of this instance, and seen once. */
  method CollectSnapshots(data: seq<Snapshot>, id: string) returns (ok: bool)
    ensures ok <==> (forall i :: 0 <= i < |data| ==> data[i].valid && data[i].source == id)
                    && (forall i, j :: 0 <= i < j < |data| ==> data[i].id != data[j].id)
  {
    var seen: set<string> := {};
    var i := 0;
    while i < |data|
      invariant 0 <= i <= |data|
      invariant forall x :: x in seen <==> exists k :: 0 <= k < i && data[k].id == x
      invariant forall k :: 0 <= k < i ==> data[k].valid && data[k].source == id
      invariant forall j, k :: 0 <= j < k < i ==> data[j].id != data[k].id
    {
      if !data[i].valid || data[i].source != id || data[i].id in seen {
        return false;
      }
      seen := seen + {data[i].id};
      i := i + 1;
    }
    return true;
  }

  /** The link after a page: to the very next one exactly if the provider counts more, and otherwise none. */
  predicate LinkAgrees(next: Link, pages: int, page: int) {
    if pages > page then next.PageLink? && next.page == page + 1 else next.NoLink?
  }

  /** An instance page is accepted exactly if it is whole, of one account, within the limits, and links to where it says. */
  lemma AcceptsInstances(p: Provider, page: int)
    ensures InstancePage(p, page).Some? <==>
            && 1 <= page <= 100 && p.instances(page).Some?
            && match p.instances(page).value
               case InstanceResponse(Some(data), Some(g), Some(next)) =>
                 && g.page == page && 1 <= g.size <= 50 && |data| <= g.size && g.total >= 0 && 0 <= g.pages <= 100
                 && (g.total > 0 ==> page <= g.pages)
                 && (forall i :: 0 <= i < |data| ==> data[i].valid && NumericId(data[i].id) && data[i].account == data[0].account)
                 && LinkAgrees(next, g.pages, page)
               case _ => false
    ensures InstancePage(p, page).Some? ==>
            && InstancePage(p, page).value.more == (p.instances(page).value.pagination.value.pages > page)
            && |InstancePage(p, page).value.ids| == |p.instances(page).value.data.value|
            && forall i :: 0 <= i < |InstancePage(p, page).value.ids| ==> InstancePage(p, page).value.ids[i] == p.instances(page).value.data.value[i].id
  {
  }

  /** A snapshot page likewise: its rows are of this instance, and none occurs twice. */
  lemma AcceptsSnapshots(p: Provider, id: string, page: int)
    ensures SnapshotRows(p, id, page).Some? <==>
            && p.snapshots(id, page).Some?
            && match p.snapshots(id, page).value
               case SnapshotResponse(Some(data), Some(g), next) =>
                 && g.page == page && 1 <= g.size <= 50 && |data| <= 50 && 0 <= g.total <= 5000 && 0 <= g.pages <= 100
                 && (page <= g.pages || (page == 1 && g.pages == 0 && data == []))
                 && (forall i :: 0 <= i < |data| ==> data[i].valid && data[i].source == id)
                 && (forall i, j :: 0 <= i < j < |data| ==> data[i].id != data[j].id)
                 && LinkAgrees(next, g.pages, page)
               case _ => false
    ensures SnapshotRows(p, id, page).Some? ==>
            && SnapshotRows(p, id, page).value.rows == p.snapshots(id, page).value.data.value
            && SnapshotRows(p, id, page).value.more == (p.snapshots(id, page).value.pagination.value.pages > page)
  {
  }

  // ---- Cursors ----

  /** Instance page, index in it, snapshot page, step count, and the instance expected there. */
  datatype Position = Position(ip: nat, index: nat, sp: nat, step: nat, expected: string)

  const START := Position(1, 0, 1, 1, "")

  predicate InRange(x: Position) {
    && 1 <= x.ip <= PAGES_MAX && x.index < PAGE_SIZE && 1 <= x.sp <= PAGES_MAX && 2 <= x.step <= STEPS_MAX
    && (x.expected == "" || NumericId(x.expected))
  }

  function Print(x: Position): string {
    FiveParts(Itoa(x.ip), Itoa(x.index), Itoa(x.sp), Itoa(x.step), x.expected, ':')
  }

  function Parse(cursor: string): Option<Position> {
    if cursor == "" then Some(START)
    else
      var parts := Split(cursor, ':');
      if |parts| != 5 then None
      else
        var ip, index, sp, step := ParseNumber(parts[0]), ParseNumber(parts[1]), ParseNumber(parts[2]), ParseNumber(parts[3]);
        if ip.None? || index.None? || sp.None? || step.None? then None
        else
          var x := Position(ip.value, index.value, sp.value, step.value, parts[4]);
          if InRange(x) then Some(x) else None
  }

  lemma NoColon(s: string)
    requires s == "" || Digits(s)
    ensures ':' !in s
  {
  }

  /** Every printed position is read back exactly. */
  lemma CursorRoundTrip(x: Position)
    requires InRange(x)
    ensures Parse(Print(x)) == Some(x) && Print(x) != ""
  {
    NumberRoundTrip(x.ip);
    NumberRoundTrip(x.index);
    NumberRoundTrip(x.sp);
    NumberRoundTrip(x.step);
    NoColon(x.expected);
    SplitFive(Itoa(x.ip), Itoa(x.index), Itoa(x.sp), Itoa(x.step), x.expected, ':');
  }

  /** And nothing but the printed form is accepted for it. */
  lemma CursorCanonical(cursor: string)
    requires cursor != "" && Parse(cursor).Some?
    ensures Print(Parse(cursor).value) == cursor
  {
    JoinSplit(cursor, ':');
    JoinFive(Split(cursor, ':'), ':');
  }

  // ---- The walk ----

  datatype Page = Page(rows: seq<Snapshot>, next: Option<Position>)

  /** Where the walk goes after one snapshot page. */
  function After(x: Position, s: Sources, more: bool): Option<Position>
    requires x.index < |s.ids|
  {
    if more then Some(Position(x.ip, x.index, x.sp + 1, x.step + 1, s.ids[x.index]))
    else if x.index + 1 < |s.ids| then Some(Position(x.ip, x.index + 1, 1, x.step + 1, s.ids[x.index + 1]))
    else if s.more then Some(Position(x.ip + 1, 0, 1, x.step + 1, ""))
    else None
  }

  function ReadAt(p: Provider, x: Position): Option<Page> {
    var s := InstancePage(p, x.ip);
    if s.None? then None
    else if s.value.ids == [] then
      if x.index != 0 || x.sp != 1 || x.expected != "" || s.value.more then None else Some(Page([], None))
    else if x.index >= |s.value.ids| || (x.expected != "" && x.expected != s.value.ids[x.index]) then None
    else
      var r := SnapshotRows(p, s.value.ids[x.index], x.sp);
      if r.None? then None
      else
        var next := After(x, s.value, r.value.more);
        if next.Some? && x.step == STEPS_MAX then None else Some(Page(r.value.rows, next))
  }

  /** One call: the rows of one page, and the cursor of the next. */
  function SnapshotPage(p: Provider, cursor: string): Option<(seq<Snapshot>, string)> {
    var x := Parse(cursor);
    if x.None? then None
    else
      var r := ReadAt(p, x.value);
      if r.None? then None else Some((r.value.rows, if r.value.next.Some? then Print(r.value.next.value) else ""))
  }

  lemma EmittedInRange(p: Provider, x: Position)
    requires (x == START || InRange(x)) && ReadAt(p, x).Some? && ReadAt(p, x).value.next.Some?
    ensures InRange(ReadAt(p, x).value.next.value) && ReadAt(p, x).value.next.value.step == x.step + 1
  {
  }

  /** Follows cursors until one is empty. `calls` bounds the calls; the step count makes a hundred enough. */
  function Follow(p: Provider, cursor: string, calls: nat): Option<seq<Snapshot>>
    decreases calls
  {
    if calls == 0 then None
    else
      var r := SnapshotPage(p, cursor);
      if r.None? then None
      else if r.value.1 == "" then Some(r.value.0)
      else
        var rest := Follow(p, r.value.1, calls - 1);
        if rest.None? then None else Some(r.value.0 + rest.value)
  }

  // ---- What there is to read ----

  /** Rows in order, and how many page reads they take. */
  datatype Listing = Listing(rows: seq<Snapshot>, cost: nat)

  function Then(a: Option<Listing>, b: Option<Listing>): Option<Listing> {
    if a.None? || b.None? then None else Some(Listing(a.value.rows + b.value.rows, a.value.cost + b.value.cost))
  }

  const NOTHING := Some(Listing([], 0))

  /** All snapshot pages of one instance, from page `sp` on. */
  function OfInstance(p: Provider, id: string, sp: nat): Option<Listing>
    decreases PAGES_MAX + 1 - sp
  {
    var r := SnapshotRows(p, id, sp);
    if r.None? then None
    else Then(Some(Listing(r.value.rows, 1)), if r.value.more then OfInstance(p, id, sp + 1) else NOTHING)
  }

  /** All instances of one page, in order. */
  function OfInstances(p: Provider, ids: seq<string>): Option<Listing>
    decreases |ids|
  {
    if ids == [] then NOTHING else Then(OfInstance(p, ids[0], 1), OfInstances(p, ids[1..]))
  }

  /** Everything from one instance page on. An empty page costs its own read and must be the last. */
  function FromPage(p: Provider, ip: nat): Option<Listing>
    decreases PAGES_MAX + 1 - ip
  {
    var s := InstancePage(p, ip);
    if s.None? then None
    else if s.value.ids == [] then (if s.value.more then None else Some(Listing([], 1)))
    else Then(OfInstances(p, s.value.ids), if s.value.more then FromPage(p, ip + 1) else NOTHING)
  }

  function Within(l: Option<Listing>, cost: int): Option<seq<Snapshot>> {
    if l.Some? && l.value.cost <= cost then Some(l.value.rows) else None
  }

  /** What is left to read at a position inside an instance page. */
  function Rest(p: Provider, x: Position, s: Sources): Option<Listing>
    requires x.index < |s.ids|
  {
    Then(OfInstance(p, s.ids[x.index], x.sp), Then(OfInstances(p, s.ids[x.index + 1..]), if s.more then FromPage(p, x.ip + 1) else NOTHING))
  }

  lemma ThenAssociates(a: Option<Listing>, b: Option<Listing>, c: Option<Listing>)
    ensures Then(Then(a, b), c) == Then(a, Then(b, c))
  {
    if a.Some? && b.Some? && c.Some? {
      assert (a.value.rows + b.value.rows) + c.value.rows == a.value.rows + (b.value.rows + c.value.rows);
    }
  }

  lemma ThenNothing(a: Option<Listing>)
    ensures Then(a, NOTHING) == a && Then(NOTHING, a) == a
  {
    if a.Some? {
      assert a.value.rows + [] == a.value.rows && [] + a.value.rows == a.value.rows;
    }
  }

  function CursorOf(x: Position): string {
    if x == START then "" else Print(x)
  }

  ghost predicate Emitted(x: Position) {
    x == START || InRange(x)
  }

  lemma CallReads(p: Provider, x: Position)
    requires Emitted(x)
    ensures var r := ReadAt(p, x);
            SnapshotPage(p, CursorOf(x)) == if r.None? then None else Some((r.value.rows, if r.value.next.Some? then Print(r.value.next.value) else ""))
  {
    if x != START {
      CursorRoundTrip(x);
    }
  }

  /** One call and then the rest, without the cursors in between. */
  lemma FollowStep(p: Provider, x: Position, calls: nat)
    requires Emitted(x) && calls > 0
    ensures var r := ReadAt(p, x);
            Follow(p, CursorOf(x), calls) ==
            if r.None? then None
            else if r.value.next.None? then Some(r.value.rows)
            else
              var rest := Follow(p, Print(r.value.next.value), calls - 1);
              if rest.None? then None else Some(r.value.rows + rest.value)
  {
    CallReads(p, x);
    var r := ReadAt(p, x);
    if r.Some? && r.value.next.Some? {
      EmittedInRange(p, x);
      CursorRoundTrip(r.value.next.value);
    }
  }

  /** The pages after the one a position is in. */
  function Tail(p: Provider, x: Position, s: Sources): Option<Listing> {
    if s.more then FromPage(p, x.ip + 1) else NOTHING
  }

  lemma NextPageRest(p: Provider, x: Position, s: Sources, r: Rows)
    requires x.index < |s.ids| && SnapshotRows(p, s.ids[x.index], x.sp) == Some(r) && r.more
    ensures Rest(p, x, s) == Then(Some(Listing(r.rows, 1)), Rest(p, After(x, s, true).value, s))
  {
    ThenAssociates(Some(Listing(r.rows, 1)), OfInstance(p, s.ids[x.index], x.sp + 1), Then(OfInstances(p, s.ids[x.index + 1..]), Tail(p, x, s)));
  }

  lemma NextInstanceRest(p: Provider, x: Position, s: Sources, r: Rows)
    requires x.index + 1 < |s.ids| && SnapshotRows(p, s.ids[x.index], x.sp) == Some(r) && !r.more
    ensures Rest(p, x, s) == Then(Some(Listing(r.rows, 1)), Rest(p, After(x, s, false).value, s))
  {
    var ids := s.ids[x.index + 1..];
    assert ids[1..] == s.ids[x.index + 2..];
    ThenNothing(Some(Listing(r.rows, 1)));
    ThenAssociates(OfInstance(p, ids[0], 1), OfInstances(p, ids[1..]), Tail(p, x, s));
  }

  lemma SamePageRest(p: Provider, x: Position, s: Sources, r: Rows)
    requires x.index < |s.ids| && SnapshotRows(p, s.ids[x.index], x.sp) == Some(r) && (r.more || x.index + 1 < |s.ids|)
    ensures Rest(p, x, s) == Then(Some(Listing(r.rows, 1)), Rest(p, After(x, s, r.more).value, s))
  {
    if r.more {
      NextPageRest(p, x, s, r);
    } else {
      NextInstanceRest(p, x, s, r);
    }
  }

  lemma LastOnPageRest(p: Provider, x: Position, s: Sources, r: Rows)
    requires x.index + 1 == |s.ids| && SnapshotRows(p, s.ids[x.index], x.sp) == Some(r) && !r.more
    ensures Rest(p, x, s) == Then(Some(Listing(r.rows, 1)), Tail(p, x, s))
  {
    assert s.ids[x.index + 1..] == [];
    ThenNothing(Some(Listing(r.rows, 1)));
    ThenNothing(Tail(p, x, s));
  }

  /** What is left after one snapshot page is what is left at the next position. */
  lemma RestSteps(p: Provider, x: Position, s: Sources)
    requires Emitted(x) && InstancePage(p, x.ip) == Some(s) && x.index < |s.ids|
    ensures var r := SnapshotRows(p, s.ids[x.index], x.sp);
            if r.None? then Rest(p, x, s).None?
            else
              var next := After(x, s, r.value.more);
              var one := Some(Listing(r.value.rows, 1));
              Rest(p, x, s) ==
                if next.None? then one
                else if next.value.ip == x.ip then Then(one, Rest(p, next.value, s))
                else Then(one, FromPage(p, next.value.ip))
  {
    var r := SnapshotRows(p, s.ids[x.index], x.sp);
    if r.Some? {
      if r.value.more || x.index + 1 < |s.ids| {
        SamePageRest(p, x, s, r.value);
      } else {
        LastOnPageRest(p, x, s, r.value);
        ThenNothing(Some(Listing(r.value.rows, 1)));
      }
    }
  }

  lemma WithinThen(rows: seq<Snapshot>, l: Option<Listing>, calls: int)
    ensures Within(Then(Some(Listing(rows, 1)), l), calls) ==
            var rest := Within(l, calls - 1);
            if rest.None? then None else Some(rows + rest.value)
  {
  }

  /** What one call contributes, in terms of what is left. */
  lemma ReadsOne(p: Provider, x: Position, s: Sources, calls: nat)
    requires Emitted(x) && InstancePage(p, x.ip) == Some(s) && x.index < |s.ids|
    requires (x.expected == "" || x.expected == s.ids[x.index]) && calls == STEPS_MAX + 1 - x.step
    ensures var r := ReadAt(p, x);
            Within(Rest(p, x, s), calls) ==
            if r.None? then None
            else if r.value.next.None? then Some(r.value.rows)
            else
              var next := r.value.next.value;
              var rest := Within(if next.ip == x.ip then Rest(p, next, s) else FromPage(p, next.ip), calls - 1);
              if rest.None? then None else Some(r.value.rows + rest.value)
    ensures var r := ReadAt(p, x);
            r.Some? && r.value.next.Some? ==>
              var next := r.value.next.value;
              if next.ip == x.ip then next.index < |s.ids| && next.expected == s.ids[next.index]
              else next == Position(x.ip + 1, 0, 1, x.step + 1, "")
  {
    RestSteps(p, x, s);
    if Rest(p, x, s).Some? {
      CostsSomething(p, x, s);
    }
    var r := SnapshotRows(p, s.ids[x.index], x.sp);
    if r.Some? && After(x, s, r.value.more).Some? {
      var next := After(x, s, r.value.more).value;
      WithinThen(r.value.rows, if next.ip == x.ip then Rest(p, next, s) else FromPage(p, next.ip), calls);
    }
  }

  lemma PrintedCursor(next: Position)
    requires InRange(next)
    ensures CursorOf(next) == Print(next) && Emitted(next)
  {
  }

  /** What is left at the position a call names next. */
  function Onward(p: Provider, x: Position, s: Sources, next: Position): Option<Listing>
    requires next.ip == x.ip ==> next.index < |s.ids|
  {
    if next.ip == x.ip then Rest(p, next, s) else FromPage(p, next.ip)
  }

  /** If the following calls read what is left after this one, then with it they read all that is left. */
  lemma FollowOn(p: Provider, x: Position, s: Sources, calls: nat, next: Position, rest: Option<seq<Snapshot>>)
    requires Emitted(x) && InstancePage(p, x.ip) == Some(s) && x.index < |s.ids|
    requires (x.expected == "" || x.expected == s.ids[x.index]) && calls == STEPS_MAX + 1 - x.step
    requires ReadAt(p, x).Some? && ReadAt(p, x).value.next == Some(next) && (next.ip == x.ip ==> next.index < |s.ids|)
    requires Follow(p, Print(next), calls - 1) == rest && Within(Onward(p, x, s, next), calls - 1) == rest
    ensures Follow(p, CursorOf(x), calls) == Within(Rest(p, x, s), calls)
  {
    FollowStep(p, x, calls);
    ReadsOne(p, x, s, calls);
  }

  lemma FollowEnds(p: Provider, x: Position, s: Sources, calls: nat)
    requires Emitted(x) && InstancePage(p, x.ip) == Some(s) && x.index < |s.ids|
    requires (x.expected == "" || x.expected == s.ids[x.index]) && calls == STEPS_MAX + 1 - x.step
    requires ReadAt(p, x).Some? ==> ReadAt(p, x).value.next.None?
    ensures Follow(p, CursorOf(x), calls) == Within(Rest(p, x, s), calls)
  {
    FollowStep(p, x, calls);
    ReadsOne(p, x, s, calls);
  }

  lemma NextPlace(p: Provider, x: Position, s: Sources, next: Position)
    requires Emitted(x) && InstancePage(p, x.ip) == Some(s) && x.index < |s.ids|
    requires ReadAt(p, x).Some? && ReadAt(p, x).value.next == Some(next)
    ensures Emitted(next) && next.step == x.step + 1 <= STEPS_MAX && CursorOf(next) == Print(next)
    ensures if next.ip == x.ip then next.index < |s.ids| && next.expected == s.ids[next.index]
            else next == Position(x.ip + 1, 0, 1, x.step + 1, "")
  {
    EmittedInRange(p, x);
    PrintedCursor(next);
  }

  lemma {:induction false} FollowReads(p: Provider, x: Position, s: Sources, calls: nat)
    requires Emitted(x) && InstancePage(p, x.ip) == Some(s) && x.index < |s.ids|
    requires x.expected == "" || x.expected == s.ids[x.index]
    requires calls == STEPS_MAX + 1 - x.step
    ensures Follow(p, CursorOf(x), calls) == Within(Rest(p, x, s), calls)
    decreases calls, 0
  {
    if ReadAt(p, x).Some? && ReadAt(p, x).value.next.Some? {
      var next := ReadAt(p, x).value.next.value;
      NextPlace(p, x, s, next);
      if next.ip == x.ip {
        FollowReads(p, next, s, calls - 1);
      } else {
        FollowPage(p, next, calls - 1);
      }
      FollowOn(p, x, s, calls, next, Follow(p, Print(next), calls - 1));
    } else {
      FollowEnds(p, x, s, calls);
    }
  }

  lemma EmptyPage(p: Provider, x: Position, calls: nat)
    requires Emitted(x) && x.index == 0 && x.sp == 1 && x.expected == "" && calls == STEPS_MAX + 1 - x.step
    requires InstancePage(p, x.ip).None? || InstancePage(p, x.ip).value.ids == []
    ensures Follow(p, CursorOf(x), calls) == Within(FromPage(p, x.ip), calls)
  {
    FollowStep(p, x, calls);
  }

  lemma PageIsRest(p: Provider, x: Position, s: Sources)
    requires InstancePage(p, x.ip) == Some(s) && s.ids != [] && x.index == 0 && x.sp == 1
    ensures FromPage(p, x.ip) == Rest(p, x, s)
  {
    var tail := if s.more then FromPage(p, x.ip + 1) else NOTHING;
    ThenAssociates(OfInstance(p, s.ids[0], 1), OfInstances(p, s.ids[1..]), tail);
  }

  /** The same from the start of an instance page. */
  lemma {:induction false} FollowPage(p: Provider, x: Position, calls: nat)
    requires Emitted(x) && x.index == 0 && x.sp == 1 && x.expected == "" && calls == STEPS_MAX + 1 - x.step
    ensures Follow(p, CursorOf(x), calls) == Within(FromPage(p, x.ip), calls)
    decreases calls, 1
  {
    var s := InstancePage(p, x.ip);
    if s.Some? && s.value.ids != [] {
      FollowReads(p, x, s.value, calls);
      PageIsRest(p, x, s.value);
    } else {
      EmptyPage(p, x, calls);
    }
  }

  lemma InstanceCosts(p: Provider, id: string, sp: nat)
    ensures OfInstance(p, id, sp).Some? ==> OfInstance(p, id, sp).value.cost >= 1
  {
  }

  lemma InstancesCost(p: Provider, ids: seq<string>)
    ensures OfInstances(p, ids).Some? && ids != [] ==> OfInstances(p, ids).value.cost >= 1
  {
    if ids != [] {
      InstanceCosts(p, ids[0], 1);
    }
  }

  lemma PageCosts(p: Provider, ip: nat)
    ensures FromPage(p, ip).Some? ==> FromPage(p, ip).value.cost >= 1
  {
    var s := InstancePage(p, ip);
    if s.Some? {
      InstancesCost(p, s.value.ids);
    }
  }

  /** Every remaining listing costs at least the read under way, and one more if the walk goes on. */
  lemma CostsSomething(p: Provider, x: Position, s: Sources)
    requires Emitted(x) && InstancePage(p, x.ip) == Some(s) && x.index < |s.ids| && Rest(p, x, s).Some?
    ensures var r := SnapshotRows(p, s.ids[x.index], x.sp);
            r.Some? && Rest(p, x, s).value.cost >= if After(x, s, r.value.more).Some? then 2 else 1
  {
    RestSteps(p, x, s);
    var r := SnapshotRows(p, s.ids[x.index], x.sp);
    if r.Some? && After(x, s, r.value.more).Some? {
      var next := After(x, s, r.value.more).value;
      if next.ip == x.ip {
        InstanceCosts(p, s.ids[next.index], next.sp);
      } else {
        PageCosts(p, next.ip);
      }
    }
  }

  /**
   From the empty cursor a walk returns all snapshot pages of all instances, in the provider's order
   and each exactly once, if every page is acceptable and there are at most a hundred; otherwise it
   fails, and never ends early.
   */
  lemma WalkIsComplete(p: Provider)
    ensures Follow(p, "", STEPS_MAX) == Within(FromPage(p, 1), STEPS_MAX)
  {
    FollowPage(p, START, STEPS_MAX);
  }
}
