/**
 The inventory tables as the source updates them: statement by statement inside each transaction,
 and page by page through one scan. Each method commits what the function of the same transaction
 in module Inventory says.
 */
module InventoryRows {
  import opened Options
  import opened Tables
  import opened Inventory
  import opened InventoryRuns

  class FeedRows {
    var now: int
    var credential: int
    var active: bool
    var runs: map<Id, SyncRun>
    var jobs: map<Id, Job>
    var staging: map<(Id, Native), Staged>
    var resources: map<Native, Row>
    var numbers: nat

    function Snapshot(): Feed
      reads this
    {
      Feed(now, credential, active, runs, jobs, staging, resources, numbers)
    }

    method Enqueue(id: Id, count: nat, limit: nat) returns (o: Outcome)
      modifies this`runs, this`jobs, this`numbers
      ensures (Snapshot(), o) == Admit(old(Snapshot()), id, count, limit)
    {
      if exists r :: r in runs && Open(runs[r]) {
        return Committed;
      }
      if count >= limit {
        return QuotaReached;
      }
      if id in runs || exists r :: r in runs && runs[r].generation == id {
        return ScanUnavailable;
      }
      runs := runs[id := SyncRun(numbers, id, Pending, false, false, 0, None)];
      jobs := jobs[id := Job(JobQueued, now, None, 0, now + REFRESH_SECONDS, None)];
      numbers := numbers + 1;
      return Committed;
    }

    method Begin(t: Ticket, allowed: bool, generation: Id) returns (o: Outcome)
      modifies this`runs, this`staging
      ensures (Snapshot(), o) == StartScan(old(Snapshot()), t, allowed, generation)
    {
      o := ScanAuthority(Snapshot(), t, 0, allowed);
      if !o.Committed? {
        return;
      }
      var r := runs[t.run];
      if r.started && exists x :: x in runs && runs[x].generation == generation {
        return ScanUnavailable;
      }
      staging := DropGeneration(staging, r.generation);
      runs := runs[t.run := r.(generation := if r.started then generation else r.generation, status := Running,
                               started := true, complete := false, pages := 0, credential := Some(credential))];
    }

    /** One page: a row at a time, none of them kept if one is refused. */
    method Stage(t: Ticket, version: int, page: Page, number: nat, allowed: bool) returns (o: Outcome)
      modifies this`runs, this`staging
      ensures (Snapshot(), o) == StagePage(old(Snapshot()), t, version, page, number, allowed)
    {
      o := ScanAuthority(Snapshot(), t, version, allowed);
      if !o.Committed? {
        return;
      }
      var r := runs[t.run];
      var rows := staging;
      var i := 0;
      while i < |page.data|
        invariant 0 <= i <= |page.data|
        invariant StageRows(staging, r.generation, page.data) == StageRows(rows, r.generation, page.data[i..])
      {
        var item := page.data[i];
        if !item.observation.timed || (r.generation, item.native) in rows {
          return ScanFailure(ResponseInvalid);
        }
        rows := rows[(r.generation, item.native) := Staged(item.id, item.observation)];
        i := i + 1;
      }
      staging := rows;
      runs := runs[t.run := r.(pages := number, complete := page.next == "")];
    }

    /** Ends a run and its job. */
    method CloseRun(t: Ticket, status: Status, job: JobState)
      requires t.run in runs && t.run in jobs
      modifies this`runs, this`jobs
      ensures Snapshot() == Close(old(Snapshot()), t, status, job)
    {
      runs := runs[t.run := runs[t.run].(status := status)];
      jobs := jobs[t.run := jobs[t.run].(state := job, lease := None, completed := Some(now))];
    }

    /** Publication: the upsert, then the tombstones, then run and job, in one transaction. */
    method Publish(t: Ticket, failure: Option<FailureCode>, allowed: bool) returns (o: Outcome)
      modifies this`runs, this`jobs, this`resources
      ensures (Snapshot(), o) == Complete(old(Snapshot()), t, failure, allowed)
    {
      if !Fenced(Snapshot(), t) || t.run !in runs || !Open(runs[t.run]) {
        return LeaseLost;
      }
      var r := runs[t.run];
      if failure.Some? {
        CloseRun(t, Failed, JobFailed);
        return Committed;
      }
      if !r.complete || r.credential.None? {
        return ScanUnavailable;
      }
      o := ScanAuthority(Snapshot(), t, r.credential.value, allowed);
      if !o.Committed? {
        return;
      }
      if Newer(Snapshot(), r.number) {
        CloseRun(t, Cancelled, JobCancelled);
      } else {
        var before := Snapshot();
        resources := Upsert(before, r.generation, r.number);
        resources := Tombstone(before, resources, r.generation, r.number);
        CloseRun(t, Succeeded, JobSucceeded);
      }
    }

    /** What the rows of a walk in progress amount to. */
    ghost predicate Walked(t: Ticket, visits: seq<Visit>)
      reads this
    {
      && t.run in runs && Matches(staging, runs[t.run].generation, RowsOf(visits))
      && Chained(visits) && (visits != [] ==> Cursor(visits) != "" || runs[t.run].complete)
    }

    /** Lease, membership, grants, connection and credential all hold. */
    ghost predicate Authorized(t: Ticket, version: int, allowed: bool)
      reads this
    {
      ScanAuthority(Snapshot(), t, version, allowed).Committed?
    }

    method StageVisit(t: Ticket, version: int, page: Page, allowed: bool, visits: seq<Visit>) returns (o: Outcome)
      requires Walked(t, visits) && |visits| < PAGES_MAX && (visits != [] ==> Cursor(visits) != "")
      modifies this`runs, this`staging
      ensures o.Committed? ==> Walked(t, visits + [Visit(Cursor(visits), page)]) && runs[t.run].complete == (page.next == "")
      ensures o.Committed? ==> Authorized(t, version, allowed)
      ensures old(Authorized(t, version, allowed)) && Stageable(RowsOf(visits), page.data) ==> o.Committed?
    {
      ghost var before := Snapshot();
      StagesExactly(staging, runs[t.run].generation, page.data, RowsOf(visits));
      o := Stage(t, version, page, |visits| + 1, allowed);
      if o.Committed? {
        var v := Visit(Cursor(visits), page);
        StagedAdds(before.staging, before.runs[t.run].generation, page.data, RowsOf(visits));
        WalkGrows(visits, v);
        ChainExtends(visits, v);
      }
    }

    method BeginWalk(t: Ticket, allowed: bool, generation: Id) returns (o: Outcome)
      requires RunsOk(Snapshot())
      modifies this`runs, this`staging
      ensures o.Committed? ==> Walked(t, []) && Authorized(t, credential, allowed)
      ensures o == StartScan(old(Snapshot()), t, allowed, generation).1
    {
      ghost var before := Snapshot();
      o := Begin(t, allowed, generation);
      if o.Committed? {
        StartShape(before, t, allowed, generation);
      }
    }

    /** A walk in progress: rows staged, totals added up, answers used. */
    ghost predicate Progress(t: Ticket, visits: seq<Visit>, walk: Totals, answers: seq<Option<Page>>)
      reads this
    {
      && Walked(t, visits) && Adds(walk, visits) && Answered(answers, visits) && |visits| <= PAGES_MAX
      && (visits != [] ==> Cursor(visits) != "")
    }

    /** How a scan may stop: without its lease, with a failure, or with exactly the pages of one complete walk staged. */
    ghost predicate Concluded(stop: Pc, t: Ticket, answers: seq<Option<Page>>)
      reads this
    {
      stop.Idle? || (stop.Ended? && (stop.failure.None? ==>
        Walked(t, stop.visits) && runs[t.run].complete && CompleteWalk(stop.visits) && Answered(answers, stop.visits)))
    }

    /** Guard, limits and staging of one page. */
    method StageAnswer(t: Ticket, version: int, allowed: bool, answer: Option<Page>, visits: seq<Visit>, walk: Totals)
      returns (stop: Option<Pc>)
      requires Walked(t, visits) && Adds(walk, visits) && |visits| < PAGES_MAX && (visits != [] ==> Cursor(visits) != "")
      modifies this`runs, this`staging
      ensures old(Authorized(t, version, allowed)) && answer.Some? && Fits(visits, answer.value) && Stageable(RowsOf(visits), answer.value.data)
              ==> stop.None?
      ensures stop.None? ==> Authorized(t, version, allowed)
      ensures stop.Some? ==> stop.value.Idle? || (stop.value.Ended? && stop.value.failure.Some?)
      ensures stop.None? ==> answer.Some? && Walked(t, visits + [Visit(Cursor(visits), answer.value)])
                             && runs[t.run].complete == (answer.value.next == "")
    {
      if answer.Some? {
        RefusalIsFits(ScanAuthority(Snapshot(), t, version, allowed), answer.value, visits, walk);
      }
      stop := Refusal(ScanAuthority(Snapshot(), t, version, allowed), answer, visits, walk);
      if stop.Some? {
        return;
      }
      var o := StageVisit(t, version, answer.value, allowed, visits);
      if !o.Committed? {
        return Some(Stops(o, visits));
      }
    }

    /** One turn of the loop. */
    method Turn(t: Ticket, version: int, allowed: bool, visits: seq<Visit>, walk: Totals, answers: seq<Option<Page>>)
      returns (stop: Option<Pc>, visits': seq<Visit>, walk': Totals)
      requires Progress(t, visits, walk, answers) && |visits| < PAGES_MAX
      modifies this`runs, this`staging
      ensures stop.Some? ==> Concluded(stop.value, t, answers)
      ensures stop.None? ==> Progress(t, visits', walk', answers) && Authorized(t, version, allowed) && MovesOn(answers, visits, visits')
      ensures old(Authorized(t, version, allowed)) ==> stop.None? || Justified(answers, visits, stop.value)
    {
      visits', walk' := visits, walk;
      var answer := if |visits| < |answers| then answers[|visits|] else None;
      stop := StageAnswer(t, version, allowed, answer, visits, walk);
      if stop.Some? {
        return;
      }
      TotalsGrow(visits, walk, answer.value);
      WalkGrows(visits, Visit(Cursor(visits), answer.value));
      walk', visits' := Next(walk, answer.value), Extended(visits, answer.value);
      if walk'.cursor == "" {
        stop := Some(Ended(None, visits'));
      }
    }

    /** One turn, as far as the walks that the answers hold are concerned. */
    method Ahead(t: Ticket, version: int, allowed: bool, visits: seq<Visit>, walk: Totals, answers: seq<Option<Page>>)
      returns (stop: Option<Pc>, visits': seq<Visit>, walk': Totals)
      requires Progress(t, visits, walk, answers) && |visits| < PAGES_MAX
      requires Authorized(t, version, allowed) && AheadOf(answers, visits)
      modifies this`runs, this`staging
      ensures stop.Some? ==> Concluded(stop.value, t, answers) && Reaches(stop.value, answers)
      ensures stop.None? ==> Progress(t, visits', walk', answers) && Authorized(t, version, allowed)
      ensures stop.None? ==> AheadOf(answers, visits') && |visits'| == |visits| + 1
    {
      stop, visits', walk' := Turn(t, version, allowed, visits, walk, answers);
      if stop.Some? {
        StopReaches(answers, visits, stop.value);
      } else {
        StaysAhead(answers, visits, visits');
      }
    }

    /** The pages of a scan that could start. */
    method ScanPages(t: Ticket, version: int, allowed: bool, answers: seq<Option<Page>>) returns (stop: Pc)
      requires Progress(t, [], Totals("", 0, 0, {}), answers) && Authorized(t, version, allowed)
      modifies this`runs, this`staging
      ensures Concluded(stop, t, answers) && Reaches(stop, answers)
    {
      var visits: seq<Visit>, walk := [], Totals("", 0, 0, {});
      while |visits| < PAGES_MAX
        invariant Progress(t, visits, walk, answers)
        invariant Authorized(t, version, allowed) && AheadOf(answers, visits)
        decreases PAGES_MAX - |visits|
      {
        var ended, visits', walk' := Ahead(t, version, allowed, visits, walk, answers);
        if ended.Some? {
          return ended.value;
        }
        visits, walk := visits', walk';
      }
      NoneSoLong(answers, visits);
      return Ended(Some(LimitReached), visits);
    }

    /**
     A whole scan with nothing in between: the provider's answer to page k is answers[k], None for an
     error. If no failure is reported, the rows staged are exactly the pages of one complete walk; and
     once the scan could start, any acceptable walk that the answers hold is what it ends with.
     */
    method Scan(t: Ticket, allowed: bool, generation: Id, answers: seq<Option<Page>>) returns (stop: Pc)
      requires RunsOk(Snapshot())
      modifies this`runs, this`staging
      ensures Concluded(stop, t, answers)
      ensures StartScan(old(Snapshot()), t, allowed, generation).1.Committed? ==> Reaches(stop, answers)
    {
      var o := BeginWalk(t, allowed, generation);
      if !o.Committed? {
        return Stops(o, []);
      }
      NothingWalked(answers);
      stop := ScanPages(t, credential, allowed, answers);
    }
  }

  lemma NothingWalked(answers: seq<Option<Page>>)
    ensures Adds(Totals("", 0, 0, {}), []) && Answered(answers, []) && AheadOf(answers, [])
  {
  }

  /** No complete walk is longer than a hundred pages. */
  lemma NoneSoLong(answers: seq<Option<Page>>, visits: seq<Visit>)
    requires AheadOf(answers, visits) && |visits| >= PAGES_MAX
    ensures forall goal :: !Acceptable(answers, goal)
  {
    forall goal ensures !Acceptable(answers, goal) {
    }
  }

  /** The loop's variables: position, totals, and the cursors seen so far. */
  datatype Totals = Totals(cursor: string, count: nat, bytes: nat, seen: set<string>)

  ghost predicate Adds(w: Totals, visits: seq<Visit>) {
    w.cursor == Cursor(visits) && w.count == Count(visits) && w.bytes == Bytes(visits) && w.seen == Seen(visits)
  }

  function Next(w: Totals, page: Page): Totals {
    Totals(page.next, w.count + |page.data|, w.bytes + page.bytes, w.seen + {page.next})
  }

  /** Why the scan stops before it stages the page. */
  function Refusal(guard: Outcome, answer: Option<Page>, visits: seq<Visit>, w: Totals): (r: Option<Pc>)
    ensures r.Some? ==> r.value.Idle? || (r.value.Ended? && r.value.failure.Some?)
    ensures r.None? ==> answer.Some?
  {
    if !guard.Committed? then Some(Stops(guard, visits))
    else if answer.None? then Some(Ended(Some(Unavailable), visits))
    else
      var page := answer.value;
      if page.bytes > PAGE_BYTES || w.bytes + page.bytes > SCAN_BYTES || w.count + |page.data| > ROWS_MAX || |page.data| > PAGE_MAX
         || |page.next| > CURSOR_MAX || (page.next != "" && page.next in w.seen)
      then Some(Ended(Some(LimitReached), visits))
      else None
  }

  /** The running totals decide exactly what the limits of module InventoryRuns ask of the whole walk. */
  lemma RefusalIsFits(guard: Outcome, page: Page, visits: seq<Visit>, w: Totals)
    requires Adds(w, visits)
    ensures Refusal(guard, Some(page), visits, w).None? <==> guard.Committed? && Fits(visits, page)
  {
  }

  /** A page's rows can be added to those staged before it: all of them timed, and no native identity twice. */
  predicate Stageable(rows: map<Native, Staged>, data: seq<Item>)
    decreases |data|
  {
    data == [] ||
    (&& data[0].observation.timed && data[0].native !in rows
     && Stageable(rows[data[0].native := Staged(data[0].id, data[0].observation)], data[1..]))
  }

  lemma {:induction false} StagesExactly(staging: map<(Id, Native), Staged>, g: Id, data: seq<Item>, rows: map<Native, Staged>)
    requires Matches(staging, g, rows)
    ensures StageRows(staging, g, data).Some? <==> Stageable(rows, data)
    decreases |data|
  {
    if data != [] && data[0].observation.timed && data[0].native !in rows {
      var v := Staged(data[0].id, data[0].observation);
      StagesExactly(staging[(g, data[0].native) := v], g, data[1..], rows[data[0].native := v]);
    }
  }

  /** The provider's answers are a complete walk, every page of it within the limits and stageable. */
  ghost predicate Acceptable(answers: seq<Option<Page>>, visits: seq<Visit>) {
    && CompleteWalk(visits) && Answered(answers, visits)
    && forall i :: 0 <= i < |visits| ==> Fits(visits[..i], visits[i].page) && Stageable(RowsOf(visits[..i]), visits[i].page.data)
  }

  /** What is left of an acceptable walk after the first pages of it. */
  predicate NextPage(answers: seq<Option<Page>>, visits: seq<Visit>) {
    && |visits| < |answers| && answers[|visits|].Some?
    && Fits(visits, answers[|visits|].value) && Stageable(RowsOf(visits), answers[|visits|].value.data)
  }

  lemma NextOfGoal(answers: seq<Option<Page>>, goal: seq<Visit>, n: nat)
    requires Acceptable(answers, goal) && n < |goal|
    ensures NextPage(answers, goal[..n])
  {
    GoalPage(answers, goal, n);
    assert Fits(goal[..n], goal[n].page) && Stageable(RowsOf(goal[..n]), goal[n].page.data);
    assert |goal[..n]| == n;
  }

  function Extended(visits: seq<Visit>, page: Page): seq<Visit> {
    visits + [Visit(Cursor(visits), page)]
  }

  lemma GoalExtends(answers: seq<Option<Page>>, goal: seq<Visit>, n: nat)
    requires CompleteWalk(goal) && Answered(answers, goal) && n < |goal|
    ensures n < |answers| && answers[n].Some? && Extended(goal[..n], answers[n].value) == goal[..n + 1]
    ensures answers[n].value.next == "" <==> n + 1 == |goal|
  {
    GoalPage(answers, goal, n);
    assert goal[..n + 1] == goal[..n] + [goal[n]];
  }

  lemma GoalPage(answers: seq<Option<Page>>, goal: seq<Visit>, n: nat)
    requires CompleteWalk(goal) && Answered(answers, goal) && n < |goal|
    ensures n < |answers| && answers[n] == Some(goal[n].page) && goal[n] == Visit(Cursor(goal[..n]), goal[n].page)
    ensures goal[n].page.next == "" <==> n + 1 == |goal|
  {
  }

  /** Every acceptable walk is still ahead. */
  ghost predicate AheadOf(answers: seq<Option<Page>>, visits: seq<Visit>) {
    forall goal :: Acceptable(answers, goal) ==> |visits| < |goal| && visits == goal[..|visits|]
  }

  /** Whatever acceptable walk the answers hold, the scan has ended with it and without a failure. */
  ghost predicate Reaches(stop: Pc, answers: seq<Option<Page>>) {
    forall goal :: Acceptable(answers, goal) ==> stop == Ended(None, goal)
  }

  /** The walk went on by the next answer, which was not its last page. */
  predicate MovesOn(answers: seq<Option<Page>>, visits: seq<Visit>, longer: seq<Visit>) {
    && |visits| < |answers| && answers[|visits|].Some?
    && longer == Extended(visits, answers[|visits|].value) && answers[|visits|].value.next != ""
  }

  /** The next answer is no acceptable page, or it is the last one and the scan ended with it. */
  predicate Justified(answers: seq<Option<Page>>, visits: seq<Visit>, stop: Pc) {
    NextPage(answers, visits) ==> answers[|visits|].value.next == "" && stop == Ended(None, Extended(visits, answers[|visits|].value))
  }

  lemma StaysAhead(answers: seq<Option<Page>>, visits: seq<Visit>, longer: seq<Visit>)
    requires AheadOf(answers, visits) && MovesOn(answers, visits, longer)
    ensures AheadOf(answers, longer)
  {
    forall goal | Acceptable(answers, goal) ensures |longer| < |goal| && longer == goal[..|longer|] {
      GoalExtends(answers, goal, |visits|);
    }
  }

  lemma StopReaches(answers: seq<Option<Page>>, visits: seq<Visit>, stop: Pc)
    requires AheadOf(answers, visits) && Justified(answers, visits, stop)
    ensures Reaches(stop, answers)
  {
    forall goal | Acceptable(answers, goal) ensures stop == Ended(None, goal) {
      NextOfGoal(answers, goal, |visits|);
      GoalExtends(answers, goal, |visits|);
      assert goal[..|goal|] == goal;
    }
  }

  ghost predicate Answered(answers: seq<Option<Page>>, visits: seq<Visit>) {
    |visits| <= |answers| && forall i :: 0 <= i < |visits| ==> answers[i] == Some(visits[i].page)
  }

  lemma SeenGrows(visits: seq<Visit>, v: Visit)
    ensures Seen(visits + [v]) == Seen(visits) + {v.page.next}
  {
    assert forall x :: x in visits + [v] <==> x in visits || x == v;
    forall c ensures c in Seen(visits + [v]) <==> c in Seen(visits) || c == v.page.next {
      if c == v.page.next {
        assert v in visits + [v];
      }
    }
  }

  lemma TotalsGrow(visits: seq<Visit>, w: Totals, page: Page)
    requires Adds(w, visits)
    ensures Adds(Next(w, page), visits + [Visit(Cursor(visits), page)])
  {
    var v := Visit(Cursor(visits), page);
    assert (visits + [v])[..|visits + [v]| - 1] == visits;
    SeenGrows(visits, v);
  }
}
