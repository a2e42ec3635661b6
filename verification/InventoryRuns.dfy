/**
 Scans as a state machine: any number of workers, each somewhere in its page walk, may crash, lose
 its lease or be overtaken at any point. What the public sees is always the complete page walk of
 the last run that succeeded.
 */
module InventoryRuns {
  import opened Options
  import opened Tables
  import opened Inventory

  /** One page read with one cursor. */
  datatype Visit = Visit(cursor: string, page: Page)

  datatype Pc =
    | Idle
    | Holding
    | Walking(version: int, visits: seq<Visit>)
    | Fetched(version: int, visits: seq<Visit>, page: Page)
    | Ended(failure: Option<FailureCode>, visits: seq<Visit>)

  datatype Scanner = Scanner(pc: Pc, ticket: Ticket)

  /** `issued` and `published` record what happened and steer nothing. */
  datatype World = World(feed: Feed, scanners: map<Id, Scanner>, issued: map<Id, Ticket>, published: map<Id, seq<Visit>>)

  // ---- The page walk ----

  function Cursor(visits: seq<Visit>): string {
    if visits == [] then "" else visits[|visits| - 1].page.next
  }

  function Count(visits: seq<Visit>): nat {
    if visits == [] then 0 else Count(visits[..|visits| - 1]) + |visits[|visits| - 1].page.data|
  }

  function Bytes(visits: seq<Visit>): nat {
    if visits == [] then 0 else Bytes(visits[..|visits| - 1]) + visits[|visits| - 1].page.bytes
  }

  function Seen(visits: seq<Visit>): set<string> {
    set v | v in visits :: v.page.next
  }

  predicate Fits(visits: seq<Visit>, page: Page) {
    && page.bytes <= PAGE_BYTES && Bytes(visits) + page.bytes <= SCAN_BYTES
    && Count(visits) + |page.data| <= ROWS_MAX && |page.data| <= PAGE_MAX
    && |page.next| <= CURSOR_MAX && (page.next == "" || page.next !in Seen(visits))
  }

  function AddRows(rows: map<Native, Staged>, data: seq<Item>): map<Native, Staged>
    decreases |data|
  {
    if data == [] then rows else AddRows(rows[data[0].native := Staged(data[0].id, data[0].observation)], data[1..])
  }

  function RowsOf(visits: seq<Visit>): map<Native, Staged> {
    if visits == [] then map[] else AddRows(RowsOf(visits[..|visits| - 1]), visits[|visits| - 1].page.data)
  }

  /** Each page was read with the cursor the page before it named; no page but the last ends the walk. */
  ghost predicate Chained(visits: seq<Visit>) {
    && |visits| <= PAGES_MAX
    && (forall i :: 0 <= i < |visits| ==> visits[i].cursor == Cursor(visits[..i]))
    && (forall i :: 0 <= i < |visits| - 1 ==> visits[i].page.next != "")
  }

  /** From the empty cursor to the empty cursor. */
  ghost predicate CompleteWalk(visits: seq<Visit>) {
    Chained(visits) && visits != [] && Cursor(visits) == ""
  }

  // ---- Steps ----

  datatype Step =
    | Tick(seconds: nat)
    | NewCredential
    | Disable
    | AdmitRun(id: Id, count: nat, limit: nat)
    | Take(worker: Id, run: Id, token: Id, at: int)
    | Extend(worker: Id)
    | Begin(worker: Id, allowed: bool, generation: Id)
    | Read(worker: Id, allowed: bool, page: Page)
    | ReadFails(worker: Id, code: FailureCode)
    | Stage(worker: Id, allowed: bool)
    | Finish(worker: Id, allowed: bool)
    | Crash(worker: Id)
    | Prune(chosen: set<(Id, Native)>)
    | DropJobs(runs: set<Id>)

  function ScannerOf(w: World, id: Id): Scanner {
    if id in w.scanners then w.scanners[id] else Scanner(Idle, Ticket(0, id, 0))
  }

  function AtPc(w: World, id: Id, pc: Pc): World {
    w.(scanners := w.scanners[id := ScannerOf(w, id).(pc := pc)])
  }

  /** A worker that lost its lease stops; any other error is recorded as the run's failure. */
  function Stops(o: Outcome, visits: seq<Visit>): Pc {
    match o
    case LeaseLost => Idle
    case ScanFailure(code) => Ended(Some(code), visits)
    case _ => Ended(Some(Unavailable), visits)
  }

  function TakeRun(w: World, s: Step): World
    requires s.Take?
  {
    var t := Ticket(s.run, s.worker, s.token);
    var (f, o) := ClaimRun(w.feed, t, s.at);
    if !ScannerOf(w, s.worker).pc.Idle? || s.token in w.issued || s.at > w.feed.now || !o.Committed? then w
    else w.(feed := f, issued := w.issued[s.token := t], scanners := w.scanners[s.worker := Scanner(Holding, t)])
  }

  function BeginScan(w: World, s: Step): World
    requires s.Begin?
  {
    var x := ScannerOf(w, s.worker);
    if !x.pc.Holding? then w
    else
      var (f, o) := StartScan(w.feed, x.ticket, s.allowed, s.generation);
      if o.Committed? then AtPc(w, s.worker, Walking(f.credential, [])).(feed := f) else AtPc(w, s.worker, Stops(o, []))
  }

  function ReadPage(w: World, s: Step): World
    requires s.Read?
  {
    var x := ScannerOf(w, s.worker);
    if !x.pc.Walking? then w
    else
      var o := ScanAuthority(w.feed, x.ticket, x.pc.version, s.allowed);
      if !o.Committed? then AtPc(w, s.worker, Stops(o, x.pc.visits))
      else if !Fits(x.pc.visits, s.page) then AtPc(w, s.worker, Ended(Some(LimitReached), x.pc.visits))
      else AtPc(w, s.worker, Fetched(x.pc.version, x.pc.visits, s.page))
  }

  function StageFetched(w: World, s: Step): World
    requires s.Stage?
  {
    var x := ScannerOf(w, s.worker);
    if !x.pc.Fetched? then w
    else
      var visits := x.pc.visits + [Visit(Cursor(x.pc.visits), x.pc.page)];
      var (f, o) := StagePage(w.feed, x.ticket, x.pc.version, x.pc.page, |visits|, s.allowed);
      if !o.Committed? then AtPc(w, s.worker, Stops(o, x.pc.visits))
      else
        AtPc(w, s.worker,
             if x.pc.page.next == "" then Ended(None, visits)
             else if |visits| >= PAGES_MAX then Ended(Some(LimitReached), visits)
             else Walking(x.pc.version, visits)).(feed := f)
  }

  function FinishScan(w: World, s: Step): World
    requires s.Finish?
  {
    var x := ScannerOf(w, s.worker);
    if !x.pc.Ended? then w
    else
      var (f, o) := Complete(w.feed, x.ticket, x.pc.failure, s.allowed);
      AtPc(w, s.worker, Idle).(
        feed := f,
        published := if o.Committed? && x.ticket.run in f.runs && f.runs[x.ticket.run].status.Succeeded?
                     then w.published[x.ticket.run := x.pc.visits] else w.published)
  }

  function Apply(w: World, s: Step): World {
    match s
    case Tick(seconds) => w.(feed := w.feed.(now := w.feed.now + seconds))
    case NewCredential => w.(feed := w.feed.(credential := w.feed.credential + 1))
    case Disable => w.(feed := DisableFeed(w.feed))
    case AdmitRun(id, count, limit) => w.(feed := Admit(w.feed, id, count, limit).0)
    case Take(_, _, _, _) => TakeRun(w, s)
    case Extend(worker) => if ScannerOf(w, worker).pc.Idle? then w else w.(feed := RenewRun(w.feed, ScannerOf(w, worker).ticket).0)
    case Begin(_, _, _) => BeginScan(w, s)
    case Read(_, _, _) => ReadPage(w, s)
    case ReadFails(worker, code) =>
      if ScannerOf(w, worker).pc.Walking? then AtPc(w, worker, Ended(Some(code), ScannerOf(w, worker).pc.visits)) else w
    case Stage(_, _) => StageFetched(w, s)
    case Finish(_, _) => FinishScan(w, s)
    case Crash(worker) => AtPc(w, worker, Idle)
    case Prune(chosen) => w.(feed := PruneStaging(w.feed, chosen))
    case DropJobs(runs) => w.(feed := PruneJobs(w.feed, runs))
  }

  function Run(w: World, steps: seq<Step>): World
    decreases |steps|
  {
    if steps == [] then w else Run(Apply(w, steps[0]), steps[1..])
  }

  ghost predicate Initial(w: World) {
    && w.feed.runs == map[] && w.feed.jobs == map[] && w.feed.staging == map[] && w.feed.resources == map[]
    && w.scanners == map[] && w.issued == map[] && w.published == map[]
  }

  // ---- Invariant ----

  ghost predicate Apart(f: Feed, a: Id, b: Id)
    requires a in f.runs && b in f.runs
  {
    && f.runs[a].generation != f.runs[b].generation
    && (Open(f.runs[a]) ==> f.runs[b].number < f.runs[a].number)
  }

  ghost predicate JobFits(j: Job, r: SyncRun) {
    && (Active(j) ==> Open(r)) && (j.lease.Some? ==> j.state.JobRunning?)
  }

  predicate HasGeneration(f: Feed, g: Id) {
    exists x :: x in f.runs && f.runs[x].generation == g
  }

  predicate HasSucceeded(f: Feed, g: Id) {
    exists x :: x in f.runs && f.runs[x].generation == g && f.runs[x].status.Succeeded?
  }

  /** One open run at most, numbered after every other; generations tell runs apart. */
  ghost predicate OrderOk(f: Feed) {
    && (forall r :: r in f.runs ==> f.runs[r].number < f.numbers)
    && (forall r :: r in f.jobs ==> r in f.runs && JobFits(f.jobs[r], f.runs[r]))
    && (forall a, b :: a in f.runs && b in f.runs && a != b ==> Apart(f, a, b))
  }

  /** Staged rows belong to a run, and resources to one that succeeded. */
  ghost predicate RefsOk(f: Feed) {
    && (forall k :: k in f.staging ==> HasGeneration(f, k.0))
    && (forall n :: n in f.resources ==> HasSucceeded(f, f.resources[n].generation))
  }

  ghost predicate RunsOk(f: Feed) {
    OrderOk(f) && RefsOk(f)
  }

  /** The staged rows of a generation are exactly these. */
  ghost predicate Matches(staging: map<(Id, Native), Staged>, g: Id, rows: map<Native, Staged>) {
    forall n :: (n in rows <==> (g, n) in staging) && (n in rows ==> staging[(g, n)] == rows[n])
  }

  /** The live resources are exactly these, all of one generation. */
  ghost predicate PublishedAs(resources: map<Native, Row>, g: Id, rows: map<Native, Staged>) {
    forall n ::
      && (n in resources && !resources[n].tombstoned <==> n in rows)
      && (n in rows ==> resources[n].observation == rows[n].observation && resources[n].generation == g)
  }

  /** The highest-numbered run that succeeded. */
  ghost predicate IsLast(f: Feed, r: Id) {
    && r in f.runs && f.runs[r].status.Succeeded?
    && forall x :: x in f.runs && f.runs[x].status.Succeeded? ==> f.runs[x].number <= f.runs[r].number
  }

  ghost predicate PublicOk(f: Feed, published: map<Id, seq<Visit>>) {
    && (forall r :: r in f.runs && f.runs[r].status.Succeeded? ==> r in published && CompleteWalk(published[r]))
    && (forall r :: IsLast(f, r) ==> r in published && PublishedAs(f.resources, f.runs[r].generation, RowsOf(published[r])))
    && ((forall r :: r in f.runs ==> !f.runs[r].status.Succeeded?) ==> f.resources == map[])
  }

  predicate Holds(f: Feed, t: Ticket) {
    t.run in f.jobs && f.jobs[t.run].lease.Some? && f.jobs[t.run].lease.value.token == t.token
  }

  /** While a worker holds its lease, its attempt's staged rows are exactly the pages it walked. */
  ghost predicate WalkOk(f: Feed, t: Ticket, visits: seq<Visit>) {
    && Chained(visits)
    && (Holds(f, t) ==>
         && t.run in f.runs && Matches(f.staging, f.runs[t.run].generation, RowsOf(visits))
         && (f.runs[t.run].complete <==> visits != [] && Cursor(visits) == ""))
  }

  ghost predicate ScannerOk(w: World, id: Id, x: Scanner) {
    !x.pc.Idle? ==>
      && x.ticket.owner == id && x.ticket.token in w.issued && w.issued[x.ticket.token] == x.ticket
      && ((x.pc.Walking? || x.pc.Fetched?) ==>
           WalkOk(w.feed, x.ticket, x.pc.visits) && |x.pc.visits| < PAGES_MAX && (x.pc.visits != [] ==> Cursor(x.pc.visits) != ""))
      && (x.pc.Ended? && x.pc.failure.None? ==> WalkOk(w.feed, x.ticket, x.pc.visits) && CompleteWalk(x.pc.visits))
  }

  ghost predicate LeasesOk(w: World) {
    && (forall r :: r in w.feed.jobs && w.feed.jobs[r].lease.Some? ==>
          var l := w.feed.jobs[r].lease.value; l.token in w.issued && w.issued[l.token] == Ticket(r, l.owner, l.token))
    && (forall t :: t in w.issued ==> w.issued[t].token == t)
    && (forall id :: id in w.scanners ==> ScannerOk(w, id, w.scanners[id]))
  }

  ghost predicate Inv(w: World) {
    RunsOk(w.feed) && PublicOk(w.feed, w.published) && LeasesOk(w)
  }

  // ---- Rows ----

  lemma {:induction false} StagedAdds(staging: map<(Id, Native), Staged>, g: Id, data: seq<Item>, rows: map<Native, Staged>)
    requires Matches(staging, g, rows) && StageRows(staging, g, data).Some?
    ensures Matches(StageRows(staging, g, data).value, g, AddRows(rows, data))
    ensures forall k: (Id, Native) :: k.0 != g ==> ((k in StageRows(staging, g, data).value <==> k in staging)
                                      && (k in staging ==> StageRows(staging, g, data).value[k] == staging[k]))
    decreases |data|
  {
    if data != [] {
      var v := Staged(data[0].id, data[0].observation);
      StagedAdds(staging[(g, data[0].native) := v], g, data[1..], rows[data[0].native := v]);
    }
  }

  lemma WalkGrows(visits: seq<Visit>, v: Visit)
    ensures Cursor(visits + [v]) == v.page.next
    ensures RowsOf(visits + [v]) == AddRows(RowsOf(visits), v.page.data)
  {
    assert (visits + [v])[..|visits + [v]| - 1] == visits;
  }

  lemma ChainExtends(visits: seq<Visit>, v: Visit)
    requires Chained(visits) && |visits| < PAGES_MAX && (visits != [] ==> Cursor(visits) != "") && v.cursor == Cursor(visits)
    ensures Chained(visits + [v])
  {
    var longer := visits + [v];
    forall i | 0 <= i < |longer| ensures longer[i].cursor == Cursor(longer[..i]) {
      if i < |visits| {
        assert longer[..i] == visits[..i];
      } else {
        assert longer[..i] == visits;
      }
    }
    forall i | 0 <= i < |longer| - 1 ensures longer[i].page.next != "" {
      assert longer[i] == visits[i];
    }
  }

  // ---- The feed alone ----

  lemma AdmitKeeps(f: Feed, published: map<Id, seq<Visit>>, id: Id, count: nat, limit: nat)
    requires RunsOk(f) && PublicOk(f, published)
    ensures var f' := Admit(f, id, count, limit).0; RunsOk(f') && PublicOk(f', published)
  {
    AdmittedShape(f, id, count, limit);
    var f' := Admit(f, id, count, limit).0;
    if f' != f {
      AdmittedOrder(f, f', id);
      GenerationsGrow(f, f');
      SameLast(f, f', published);
    }
  }

  lemma AdmittedShape(f: Feed, id: Id, count: nat, limit: nat)
    ensures var f' := Admit(f, id, count, limit).0;
            || f' == f
            || (&& id !in f.runs && !HasGeneration(f, id) && (forall r :: r in f.runs ==> !Open(f.runs[r]))
                && f'.runs == f.runs[id := SyncRun(f.numbers, id, Pending, false, false, 0, None)] && f'.numbers == f.numbers + 1
                && f'.jobs == f.jobs[id := Job(JobQueued, f.now, None, 0, f.now + REFRESH_SECONDS, None)]
                && f'.staging == f.staging && f'.resources == f.resources)
  {
  }

  lemma AdmittedOrder(f: Feed, f': Feed, id: Id)
    requires OrderOk(f) && id !in f.runs && !HasGeneration(f, id) && forall r :: r in f.runs ==> !Open(f.runs[r])
    requires f'.runs == f.runs[id := SyncRun(f.numbers, id, Pending, false, false, 0, None)] && f'.numbers == f.numbers + 1
    requires f'.jobs == f.jobs[id := Job(JobQueued, f.now, None, 0, f.now + REFRESH_SECONDS, None)]
    ensures OrderOk(f')
  {
    forall a, b | a in f'.runs && b in f'.runs && a != b ensures Apart(f', a, b) {
      assert a != id && b != id ==> Apart(f, a, b);
    }
  }

  /** Runs that keep their generation keep it; runs that succeeded keep both. */
  lemma GenerationsGrow(f: Feed, f': Feed)
    requires forall r :: r in f.runs ==> r in f'.runs && f'.runs[r].generation == f.runs[r].generation
                                         && (f.runs[r].status.Succeeded? ==> f'.runs[r].status.Succeeded?)
    ensures forall g :: HasGeneration(f, g) ==> HasGeneration(f', g)
    ensures forall g :: HasSucceeded(f, g) ==> HasSucceeded(f', g)
  {
    forall g | HasGeneration(f, g) ensures HasGeneration(f', g) {
      var x :| x in f.runs && f.runs[x].generation == g;
      assert f'.runs[x].generation == g;
    }
    forall g | HasSucceeded(f, g) ensures HasSucceeded(f', g) {
      var x :| x in f.runs && f.runs[x].generation == g && f.runs[x].status.Succeeded?;
      assert f'.runs[x].generation == g;
    }
  }

  /** A feed whose runs and resources are as before. */
  lemma SameRunsKeep(f: Feed, f': Feed, published: map<Id, seq<Visit>>)
    requires RunsOk(f) && PublicOk(f, published)
    requires f'.runs == f.runs && f'.resources == f.resources && f'.numbers == f.numbers
    requires forall k :: k in f'.staging ==> k in f.staging
    requires forall r :: r in f'.jobs ==> r in f.jobs && JobFits(f'.jobs[r], f.runs[r])
    ensures RunsOk(f') && PublicOk(f', published)
  {
    GenerationsGrow(f, f');
    forall a, b | a in f'.runs && b in f'.runs && a != b ensures Apart(f', a, b) {
      assert Apart(f, a, b);
    }
    forall r | IsLast(f', r) ensures IsLast(f, r) {
    }
  }

  predicate LeasedBy(j: Job, t: Ticket) {
    j.state.JobRunning? && j.lease.Some? && j.lease.value.owner == t.owner && j.lease.value.token == t.token
  }

  lemma ClaimShape(f: Feed, t: Ticket, at: int)
    ensures var f' := ClaimRun(f, t, at).0;
            && (ClaimRun(f, t, at).1.Committed? ==> t.run in f.jobs && Active(f.jobs[t.run]))
            && f' == f.(jobs := f'.jobs) && f'.jobs.Keys == f.jobs.Keys
            && (!ClaimRun(f, t, at).1.Committed? ==> f' == f)
            && (forall r :: r in f.jobs && r != t.run ==> f'.jobs[r] == f.jobs[r])
            && (ClaimRun(f, t, at).1.Committed? ==> LeasedBy(f'.jobs[t.run], t))
  {
  }

  lemma RenewShape(f: Feed, t: Ticket)
    ensures var f' := RenewRun(f, t).0;
            && f' == f.(jobs := f'.jobs) && f'.jobs.Keys == f.jobs.Keys
            && forall r :: r in f.jobs ==> (f'.jobs[r] == f.jobs[r] || (r == t.run && LeasedBy(f.jobs[r], t) && LeasedBy(f'.jobs[r], t)))
  {
  }

  /** The open run changes, and perhaps ends. */
  lemma OrderStep(f: Feed, f': Feed, t: Id, r: SyncRun)
    requires OrderOk(f) && t in f.runs && Open(f.runs[t]) && r.number == f.runs[t].number
    requires r.generation == f.runs[t].generation || !HasGeneration(f, r.generation)
    requires f'.runs == f.runs[t := r] && f'.jobs.Keys == f.jobs.Keys && f'.numbers == f.numbers
    requires forall x :: x in f.jobs && x != t ==> f'.jobs[x] == f.jobs[x]
    requires t in f'.jobs ==> JobFits(f'.jobs[t], r)
    ensures OrderOk(f')
  {
    forall a, b | a in f'.runs && b in f'.runs && a != b ensures Apart(f', a, b) {
      assert Apart(f, a, b) && Apart(f, b, a);
    }
  }

  /** One open run moves on: its generation is its own or unused, and its number stays. */
  lemma RunMoves(f: Feed, t: Id, r: SyncRun, staging: map<(Id, Native), Staged>, published: map<Id, seq<Visit>>)
    requires RunsOk(f) && PublicOk(f, published) && t in f.runs && Open(f.runs[t]) && Open(r) && r.number == f.runs[t].number
    requires r.generation == f.runs[t].generation || !HasGeneration(f, r.generation)
    requires forall k :: k in staging ==> (k in f.staging && k.0 != f.runs[t].generation) || k.0 == r.generation
    ensures var f' := f.(runs := f.runs[t := r], staging := staging); RunsOk(f') && PublicOk(f', published)
  {
    var f' := f.(runs := f.runs[t := r], staging := staging);
    OrderStep(f, f', t, r);
    RefsMove(f, t, r, staging);
    SameLast(f, f', published);
  }

  lemma RefsMove(f: Feed, t: Id, r: SyncRun, staging: map<(Id, Native), Staged>)
    requires RefsOk(f) && t in f.runs && Open(f.runs[t])
    requires forall k :: k in staging ==> (k in f.staging && k.0 != f.runs[t].generation) || k.0 == r.generation
    ensures RefsOk(f.(runs := f.runs[t := r], staging := staging))
  {
    var f' := f.(runs := f.runs[t := r], staging := staging);
    forall k | k in f'.staging ensures HasGeneration(f', k.0) {
      if k.0 == r.generation {
        assert f'.runs[t].generation == k.0;
      } else {
        var x :| x in f.runs && f.runs[x].generation == k.0;
        assert f'.runs[x].generation == k.0;
      }
    }
    forall n | n in f'.resources ensures HasSucceeded(f', f'.resources[n].generation) {
      var x :| x in f.runs && f.runs[x].generation == f.resources[n].generation && f.runs[x].status.Succeeded?;
      assert f'.runs[x] == f.runs[x];
    }
  }

  lemma SameLast(f: Feed, f': Feed, published: map<Id, seq<Visit>>)
    requires PublicOk(f, published) && f'.resources == f.resources
    requires forall r :: r in f'.runs && f'.runs[r].status.Succeeded? ==> r in f.runs && f.runs[r] == f'.runs[r]
    requires forall r :: r in f.runs && f.runs[r].status.Succeeded? ==> r in f'.runs && f'.runs[r] == f.runs[r]
    ensures PublicOk(f', published)
  {
    forall r | IsLast(f', r) ensures IsLast(f, r) {
    }
    if forall r :: r in f'.runs ==> !f'.runs[r].status.Succeeded? {
      forall r | r in f.runs ensures !f.runs[r].status.Succeeded? {
      }
    }
  }

  /** An open run ends without publishing. */
  lemma CloseKeeps(f: Feed, t: Ticket, status: Status, job: JobState, published: map<Id, seq<Visit>>)
    requires RunsOk(f) && PublicOk(f, published) && t.run in f.runs && t.run in f.jobs && Open(f.runs[t.run])
    requires (status.Failed? || status.Cancelled?) && (job.JobFailed? || job.JobCancelled?)
    ensures var f' := Close(f, t, status, job); RunsOk(f') && PublicOk(f', published)
  {
    var f' := Close(f, t, status, job);
    OrderStep(f, f', t.run, f'.runs[t.run]);
    GenerationsGrow(f, f');
    SameLast(f, f', published);
  }

  // ---- Publication ----

  /** The branch for a newer success is never taken: the open run is the newest. */
  lemma NeverOvertaken(f: Feed, r: Id)
    requires OrderOk(f) && r in f.runs && Open(f.runs[r])
    ensures !Newer(f, f.runs[r].number)
  {
    forall x | x in f.runs && f.runs[x].status.Succeeded? ensures f.runs[x].number <= f.runs[r].number {
      assert x != r && Apart(f, r, x);
    }
  }

  lemma AllAdmittedBefore(f: Feed, r: Id, g: Id)
    requires RunsOk(f) && r in f.runs && Open(f.runs[r]) && HasSucceeded(f, g)
    ensures AdmittedBy(f, g, f.runs[r].number) && g != f.runs[r].generation
  {
    var x :| x in f.runs && f.runs[x].generation == g && f.runs[x].status.Succeeded?;
    assert x != r && Apart(f, r, x);
  }

  /** Upsert and tombstones together make the staged rows, and only them, live. */
  lemma PublishesExactly(f: Feed, r: Id, rows: map<Native, Staged>)
    requires RunsOk(f) && r in f.runs && Open(f.runs[r]) && Matches(f.staging, f.runs[r].generation, rows)
    ensures var g, number := f.runs[r].generation, f.runs[r].number;
            PublishedAs(Tombstone(f, Upsert(f, g, number), g, number), g, rows)
  {
    var g, number := f.runs[r].generation, f.runs[r].number;
    var rows1 := Upsert(f, g, number);
    var rows2 := Tombstone(f, rows1, g, number);
    forall n ensures (n in rows2 && !rows2[n].tombstoned <==> n in rows)
                     && (n in rows ==> rows2[n].observation == rows[n].observation && rows2[n].generation == g)
    {
      if n in f.resources {
        AllAdmittedBefore(f, r, f.resources[n].generation);
      }
      if n in rows {
        assert (g, n) in f.staging;
        assert n in rows1;
      }
    }
  }

  /** Publishing moves no row of an earlier generation and removes none. */
  lemma RowsStay(f: Feed, g: Id, number: nat, n: Native)
    requires n in f.resources
    ensures var rows := Tombstone(f, Upsert(f, g, number), g, number);
            && n in rows && rows[n].id == f.resources[n].id && rows[n].version >= f.resources[n].version
            && (rows[n].version == f.resources[n].version ==> rows[n] == f.resources[n])
            && (rows[n].generation == f.resources[n].generation || rows[n].generation == g)
  {
  }

  lemma NewRowsAreStaged(f: Feed, g: Id, number: nat, n: Native)
    requires n !in f.resources && n in Tombstone(f, Upsert(f, g, number), g, number)
    ensures (g, n) in f.staging && Tombstone(f, Upsert(f, g, number), g, number)[n].generation == g
  {
  }

  lemma PublicationRefs(f: Feed, t: Ticket)
    requires RunsOk(f) && t.run in f.runs && t.run in f.jobs && Open(f.runs[t.run])
    ensures var r := f.runs[t.run];
            RefsOk(Close(f, t, Succeeded, JobSucceeded).(resources := Tombstone(f, Upsert(f, r.generation, r.number), r.generation, r.number)))
  {
    var r := f.runs[t.run];
    var rows := Tombstone(f, Upsert(f, r.generation, r.number), r.generation, r.number);
    var f' := Close(f, t, Succeeded, JobSucceeded).(resources := rows);
    GenerationsGrow(f, f');
    assert f'.runs[t.run].generation == r.generation && f'.runs[t.run].status.Succeeded?;
    forall n | n in rows ensures HasSucceeded(f', rows[n].generation) {
      if n in f.resources {
        RowsStay(f, r.generation, r.number, n);
      } else {
        NewRowsAreStaged(f, r.generation, r.number, n);
      }
    }
  }

  lemma PublicationIsLast(f: Feed, t: Ticket, resources: map<Native, Row>)
    requires OrderOk(f) && t.run in f.runs && t.run in f.jobs && Open(f.runs[t.run])
    ensures forall x :: IsLast(Close(f, t, Succeeded, JobSucceeded).(resources := resources), x) ==> x == t.run
  {
    var f' := Close(f, t, Succeeded, JobSucceeded).(resources := resources);
    forall x | x in f.runs && x != t.run ensures f.runs[x].number < f.runs[t.run].number {
      assert Apart(f, t.run, x);
    }
    assert f'.runs[t.run].status.Succeeded?;
  }

  lemma PublicationKeeps(f: Feed, t: Ticket, visits: seq<Visit>, published: map<Id, seq<Visit>>)
    requires RunsOk(f) && PublicOk(f, published) && t.run in f.runs && t.run in f.jobs && Open(f.runs[t.run])
    requires CompleteWalk(visits) && Matches(f.staging, f.runs[t.run].generation, RowsOf(visits))
    ensures var r := f.runs[t.run];
            var f' := Close(f, t, Succeeded, JobSucceeded).(resources := Tombstone(f, Upsert(f, r.generation, r.number), r.generation, r.number));
            RunsOk(f') && PublicOk(f', published[t.run := visits])
  {
    var r := f.runs[t.run];
    var rows := Tombstone(f, Upsert(f, r.generation, r.number), r.generation, r.number);
    var f' := Close(f, t, Succeeded, JobSucceeded).(resources := rows);
    OrderStep(f, f', t.run, f'.runs[t.run]);
    PublicationRefs(f, t);
    PublishesExactly(f, t.run, RowsOf(visits));
    PublicationIsLast(f, t, rows);
    PublicationPublic(f, f', t, visits, published);
  }

  lemma PublicationPublic(f: Feed, f': Feed, t: Ticket, visits: seq<Visit>, published: map<Id, seq<Visit>>)
    requires PublicOk(f, published) && t.run in f.runs && CompleteWalk(visits)
    requires f'.runs == f.runs[t.run := f.runs[t.run].(status := Succeeded)]
    requires PublishedAs(f'.resources, f.runs[t.run].generation, RowsOf(visits))
    requires forall x :: IsLast(f', x) ==> x == t.run
    ensures PublicOk(f', published[t.run := visits])
  {
    assert f'.runs[t.run].status.Succeeded?;
  }

  // ---- Workers ----

  /** What a scanner relies on is the same in another feed, or its lease is gone there. */
  ghost predicate SameWalk(f: Feed, f': Feed, t: Ticket) {
    Holds(f', t) ==>
      && Holds(f, t)
      && (t.run in f.runs ==>
           && t.run in f'.runs && f'.runs[t.run].generation == f.runs[t.run].generation && f'.runs[t.run].complete == f.runs[t.run].complete
           && forall n :: ((f.runs[t.run].generation, n) in f'.staging <==> (f.runs[t.run].generation, n) in f.staging)
                && ((f.runs[t.run].generation, n) in f.staging
                    ==> f'.staging[(f.runs[t.run].generation, n)] == f.staging[(f.runs[t.run].generation, n)]))
  }

  lemma WalkStays(f: Feed, f': Feed, t: Ticket, visits: seq<Visit>)
    requires WalkOk(f, t, visits) && SameWalk(f, f', t)
    ensures WalkOk(f', t, visits)
  {
  }

  ghost predicate IssuedGrows(w: World, w': World) {
    && (forall t :: t in w.issued ==> t in w'.issued && w'.issued[t] == w.issued[t])
    && (forall t :: t in w'.issued && t !in w.issued ==> w'.issued[t].token == t)
  }

  ghost predicate JobLeaseOk(w: World, r: Id)
    requires r in w.feed.jobs
  {
    w.feed.jobs[r].lease.Some? ==>
      var l := w.feed.jobs[r].lease.value; l.token in w.issued && w.issued[l.token] == Ticket(r, l.owner, l.token)
  }

  /** A step of `me`, or of nobody, that leaves every other scanner's walk alone. */
  lemma OthersKeep(w: World, w': World, me: Id)
    requires LeasesOk(w) && IssuedGrows(w, w')
    requires forall r :: r in w'.feed.jobs ==> JobLeaseOk(w', r)
    requires forall y :: y in w'.scanners && y != me ==> y in w.scanners && w'.scanners[y] == w.scanners[y]
    requires me in w'.scanners ==> ScannerOk(w', me, w'.scanners[me])
    requires forall y :: y in w.scanners && y != me && !w.scanners[y].pc.Idle? ==> SameWalk(w.feed, w'.feed, w.scanners[y].ticket)
    ensures LeasesOk(w')
  {
    forall y | y in w'.scanners ensures ScannerOk(w', y, w'.scanners[y]) {
      if y != me {
        var x := w.scanners[y];
        assert ScannerOk(w, y, x);
        if x.pc.Walking? || x.pc.Fetched? || (x.pc.Ended? && x.pc.failure.None?) {
          WalkStays(w.feed, w'.feed, x.ticket, x.pc.visits);
        }
      }
    }
  }

  /** A worker that moves on without a commit. */
  lemma PcKeeps(w: World, me: Id, pc: Pc)
    requires Inv(w) && me in w.scanners && !w.scanners[me].pc.Idle? && ScannerOk(w, me, w.scanners[me].(pc := pc))
    ensures Inv(AtPc(w, me, pc))
  {
    OthersKeep(w, AtPc(w, me, pc), me);
  }

  lemma JobLeases(w: World)
    requires LeasesOk(w)
    ensures forall r :: r in w.feed.jobs ==> JobLeaseOk(w, r)
  {
  }

  /** Holding is exclusive: two tickets with the current token are one. */
  lemma HolderIsOne(w: World, a: Id, b: Id)
    requires LeasesOk(w) && a in w.scanners && b in w.scanners && a != b
    requires !w.scanners[a].pc.Idle? && !w.scanners[b].pc.Idle?
    ensures w.scanners[a].ticket.token != w.scanners[b].ticket.token
    ensures w.scanners[a].ticket.run == w.scanners[b].ticket.run ==>
              !(Holds(w.feed, w.scanners[a].ticket) && Holds(w.feed, w.scanners[b].ticket))
  {
    assert ScannerOk(w, a, w.scanners[a]) && ScannerOk(w, b, w.scanners[b]);
  }

  lemma TakenLeases(w: World, w': World, t: Ticket)
    requires LeasesOk(w) && t.token !in w.issued && t.run in w.feed.jobs
    requires w'.feed == w.feed.(jobs := w'.feed.jobs) && w'.feed.jobs.Keys == w.feed.jobs.Keys
    requires forall r :: r in w.feed.jobs && r != t.run ==> w'.feed.jobs[r] == w.feed.jobs[r]
    requires LeasedBy(w'.feed.jobs[t.run], t)
    requires w'.issued == w.issued[t.token := t] && w'.scanners == w.scanners[t.owner := Scanner(Holding, t)]
    ensures LeasesOk(w')
  {
    JobLeases(w);
    forall y | y in w.scanners && y != t.owner && !w.scanners[y].pc.Idle? ensures SameWalk(w.feed, w'.feed, w.scanners[y].ticket) {
      assert ScannerOk(w, y, w.scanners[y]);
    }
    OthersKeep(w, w', t.owner);
  }

  lemma TakeKeeps(w: World, s: Step)
    requires Inv(w) && s.Take?
    ensures Inv(TakeRun(w, s))
  {
    var t := Ticket(s.run, s.worker, s.token);
    if ScannerOf(w, s.worker).pc.Idle? && s.token !in w.issued && s.at <= w.feed.now && ClaimRun(w.feed, t, s.at).1.Committed? {
      var w' := TakeRun(w, s);
      ClaimShape(w.feed, t, s.at);
      TakenLeases(w, w', t);
      assert JobFits(w.feed.jobs[s.run], w.feed.runs[s.run]);
      SameRunsKeep(w.feed, w'.feed, w.published);
    }
  }

  lemma ExtendKeeps(w: World, worker: Id)
    requires Inv(w)
    ensures Inv(Apply(w, Extend(worker)))
  {
    var x := ScannerOf(w, worker);
    if !x.pc.Idle? {
      var w' := Apply(w, Extend(worker));
      RenewShape(w.feed, x.ticket);
      SameRunsKeep(w.feed, w'.feed, w.published);
      RenewedLeases(w, w', worker);
    }
  }

  lemma RenewedLeases(w: World, w': World, worker: Id)
    requires LeasesOk(w) && worker in w.scanners && !w.scanners[worker].pc.Idle?
    requires w' == w.(feed := w.feed.(jobs := w'.feed.jobs)) && w'.feed.jobs.Keys == w.feed.jobs.Keys
    requires var t := w.scanners[worker].ticket; forall r :: r in w.feed.jobs ==>
               (w'.feed.jobs[r] == w.feed.jobs[r] || (r == t.run && LeasedBy(w.feed.jobs[r], t) && LeasedBy(w'.feed.jobs[r], t)))
    ensures LeasesOk(w')
  {
    var x := w.scanners[worker];
    assert ScannerOk(w, worker, x);
    JobLeases(w);
    if x.pc.Walking? || x.pc.Fetched? || (x.pc.Ended? && x.pc.failure.None?) {
      WalkStays(w.feed, w'.feed, x.ticket, x.pc.visits);
    }
    OthersKeep(w, w', worker);
  }

  /** Everything a fenced commit of one ticket leaves alone. */
  ghost predicate FencedCommit(f: Feed, f': Feed, t: Ticket) {
    && t.run in f.runs && t.run in f.jobs && Fenced(f, t) && Open(f.runs[t.run])
    && f'.runs.Keys == f.runs.Keys && f'.jobs.Keys == f.jobs.Keys
    && (forall r :: r in f.runs && r != t.run ==> f'.runs[r] == f.runs[r])
    && (forall r :: r in f.jobs && r != t.run ==> f'.jobs[r] == f.jobs[r])
    && (f'.jobs[t.run].lease == f.jobs[t.run].lease || f'.jobs[t.run].lease.None?)
    && (forall k :: k in f.staging && k.0 != f.runs[t.run].generation ==> k in f'.staging && f'.staging[k] == f.staging[k])
    && (forall k :: k in f'.staging && k !in f.staging ==> k.0 == f'.runs[t.run].generation)
    && (f'.runs[t.run].generation == f.runs[t.run].generation || !HasGeneration(f, f'.runs[t.run].generation))
  }

  lemma BesideFenced(f: Feed, f': Feed, t: Ticket, other: Ticket)
    requires OrderOk(f) && FencedCommit(f, f', t) && other.token != t.token
    ensures SameWalk(f, f', other)
  {
    if other.run != t.run && other.run in f.runs {
      assert Apart(f, t.run, other.run);
      assert HasGeneration(f, f.runs[other.run].generation);
    }
  }

  lemma FencedKeepsLeases(w: World, w': World, me: Id)
    requires LeasesOk(w) && OrderOk(w.feed) && me in w.scanners && !w.scanners[me].pc.Idle?
    requires FencedCommit(w.feed, w'.feed, w.scanners[me].ticket) && w'.issued == w.issued
    requires forall y :: y in w'.scanners && y != me ==> y in w.scanners && w'.scanners[y] == w.scanners[y]
    requires me in w'.scanners ==> ScannerOk(w', me, w'.scanners[me])
    ensures LeasesOk(w')
  {
    JobLeases(w);
    forall y | y in w.scanners && y != me && !w.scanners[y].pc.Idle? ensures SameWalk(w.feed, w'.feed, w.scanners[y].ticket) {
      HolderIsOne(w, me, y);
      BesideFenced(w.feed, w'.feed, w.scanners[me].ticket, w.scanners[y].ticket);
    }
    OthersKeep(w, w', me);
  }

  lemma StartShape(f: Feed, t: Ticket, allowed: bool, generation: Id)
    requires RunsOk(f) && StartScan(f, t, allowed, generation).1.Committed?
    ensures var f' := StartScan(f, t, allowed, generation).0;
            && t.run in f.runs && Open(f.runs[t.run]) && FencedCommit(f, f', t)
            && f' == f.(runs := f.runs[t.run := f'.runs[t.run]], staging := DropGeneration(f.staging, f.runs[t.run].generation))
            && f'.runs[t.run].number == f.runs[t.run].number && Open(f'.runs[t.run]) && !f'.runs[t.run].complete
            && Matches(f'.staging, f'.runs[t.run].generation, map[])
  {
    var r := f.runs[t.run];
    var next := if r.started then generation else r.generation;
    assert r.started ==> !HasGeneration(f, generation);
  }

  lemma BeginKeeps(w: World, s: Step)
    requires Inv(w) && s.Begin?
    ensures Inv(BeginScan(w, s))
  {
    var x := ScannerOf(w, s.worker);
    if x.pc.Holding? {
      var w' := BeginScan(w, s);
      assert ScannerOk(w, s.worker, x);
      var (f, o) := StartScan(w.feed, x.ticket, s.allowed, s.generation);
      if o.Committed? {
        StartShape(w.feed, x.ticket, s.allowed, s.generation);
        var t := x.ticket.run;
        RunMoves(w.feed, t, f.runs[t], f.staging, w.published);
        FencedKeepsLeases(w, w', s.worker);
      } else {
        PcKeeps(w, s.worker, Stops(o, []));
      }
    }
  }

  lemma ReadKeeps(w: World, s: Step)
    requires Inv(w) && s.Read?
    ensures Inv(ReadPage(w, s))
  {
    var x := ScannerOf(w, s.worker);
    if x.pc.Walking? {
      assert ScannerOk(w, s.worker, x);
      PcKeeps(w, s.worker, ReadPage(w, s).scanners[s.worker].pc);
    }
  }

  lemma StageShape(f: Feed, t: Ticket, version: int, page: Page, number: nat, allowed: bool, rows: map<Native, Staged>)
    requires RunsOk(f) && StagePage(f, t, version, page, number, allowed).1.Committed?
    requires t.run in f.runs && Matches(f.staging, f.runs[t.run].generation, rows)
    ensures var f' := StagePage(f, t, version, page, number, allowed).0; var r := f.runs[t.run];
            && Open(r) && FencedCommit(f, f', t)
            && f' == f.(runs := f.runs[t.run := r.(pages := number, complete := page.next == "")], staging := f'.staging)
            && (forall k :: k in f'.staging ==> (k in f.staging && k.0 != r.generation) || k.0 == r.generation)
            && Matches(f'.staging, r.generation, AddRows(rows, page.data))
  {
    StagedAdds(f.staging, f.runs[t.run].generation, page.data, rows);
  }

  lemma StagedKeeps(w: World, w': World, me: Id, f: Feed, visits: seq<Visit>, pc: Pc)
    requires Inv(w) && me in w.scanners && w.scanners[me].pc.Fetched?
    requires w' == AtPc(w, me, pc).(feed := f)
    requires var x := w.scanners[me];
             && FencedCommit(w.feed, f, x.ticket) && f == w.feed.(runs := w.feed.runs[x.ticket.run := f.runs[x.ticket.run]], staging := f.staging)
             && Open(f.runs[x.ticket.run]) && f.runs[x.ticket.run].number == w.feed.runs[x.ticket.run].number
             && f.runs[x.ticket.run].generation == w.feed.runs[x.ticket.run].generation
             && (forall k :: k in f.staging ==> (k in w.feed.staging && k.0 != f.runs[x.ticket.run].generation) || k.0 == f.runs[x.ticket.run].generation)
             && WalkOk(f, x.ticket, visits)
    requires pc.Walking? ==> pc.visits == visits && |visits| < PAGES_MAX && Cursor(visits) != ""
    requires pc.Ended? && pc.failure.None? ==> pc.visits == visits && CompleteWalk(visits)
    requires pc.Walking? || pc.Ended?
    ensures Inv(w')
  {
    var x := w.scanners[me];
    assert ScannerOk(w, me, x);
    RunMoves(w.feed, x.ticket.run, f.runs[x.ticket.run], f.staging, w.published);
    FencedKeepsLeases(w, w', me);
  }

  lemma StageKeeps(w: World, s: Step)
    requires Inv(w) && s.Stage?
    ensures Inv(StageFetched(w, s))
  {
    var x := ScannerOf(w, s.worker);
    if x.pc.Fetched? {
      assert ScannerOk(w, s.worker, x);
      var v := Visit(Cursor(x.pc.visits), x.pc.page);
      var visits := x.pc.visits + [v];
      var (f, o) := StagePage(w.feed, x.ticket, x.pc.version, x.pc.page, |visits|, s.allowed);
      if o.Committed? {
        WalkGrows(x.pc.visits, v);
        ChainExtends(x.pc.visits, v);
        StageShape(w.feed, x.ticket, x.pc.version, x.pc.page, |visits|, s.allowed, RowsOf(x.pc.visits));
        StagedKeeps(w, StageFetched(w, s), s.worker, f, visits,
                    if x.pc.page.next == "" then Ended(None, visits)
                    else if |visits| >= PAGES_MAX then Ended(Some(LimitReached), visits)
                    else Walking(x.pc.version, visits));
      } else {
        PcKeeps(w, s.worker, Stops(o, x.pc.visits));
      }
    }
  }

  function PublishedFeed(f: Feed, t: Ticket): Feed
    requires t.run in f.runs && t.run in f.jobs
  {
    var r := f.runs[t.run];
    Close(f, t, Succeeded, JobSucceeded).(resources := Tombstone(f, Upsert(f, r.generation, r.number), r.generation, r.number))
  }

  lemma CompleteShape(f: Feed, t: Ticket, failure: Option<FailureCode>, allowed: bool)
    requires OrderOk(f)
    ensures var (f', o) := Complete(f, t, failure, allowed);
            if !o.Committed? then f' == f
            else t.run in f.runs && t.run in f.jobs && Open(f.runs[t.run]) && FencedCommit(f, f', t) && Holds(f, t)
                 && f' == (if failure.Some? then Close(f, t, Failed, JobFailed) else PublishedFeed(f, t))
  {
    if t.run in f.runs && Open(f.runs[t.run]) {
      NeverOvertaken(f, t.run);
    }
  }

  lemma FinishedKeeps(w: World, w': World, me: Id, f: Feed)
    requires Inv(w) && me in w.scanners && w.scanners[me].pc.Ended?
    requires FencedCommit(w.feed, f, w.scanners[me].ticket)
    requires w'.feed == f && w'.issued == w.issued && w'.scanners == w.scanners[me := w.scanners[me].(pc := Idle)]
    requires RunsOk(f) && PublicOk(f, w'.published)
    ensures Inv(w')
  {
    FencedKeepsLeases(w, w', me);
  }

  lemma FinishKeeps(w: World, s: Step)
    requires Inv(w) && s.Finish?
    ensures Inv(FinishScan(w, s))
  {
    var x := ScannerOf(w, s.worker);
    if x.pc.Ended? {
      assert ScannerOk(w, s.worker, x);
      CompleteShape(w.feed, x.ticket, x.pc.failure, s.allowed);
      var (f, o) := Complete(w.feed, x.ticket, x.pc.failure, s.allowed);
      if !o.Committed? {
        assert FinishScan(w, s) == AtPc(w, s.worker, Idle);
        PcKeeps(w, s.worker, Idle);
      } else {
        if x.pc.failure.Some? {
          CloseKeeps(w.feed, x.ticket, Failed, JobFailed, w.published);
        } else {
          PublicationKeeps(w.feed, x.ticket, x.pc.visits, w.published);
        }
        FinishedKeeps(w, FinishScan(w, s), s.worker, f);
      }
    }
  }

  // ---- Everybody else ----

  /** A change outside the scans that keeps leases, or ends them, and the staged rows of open runs. */
  lemma OutsideKeeps(w: World, f: Feed)
    requires Inv(w) && RunsOk(f) && PublicOk(f, w.published)
    requires forall r :: r in f.jobs && f.jobs[r].lease.Some? ==> r in w.feed.jobs && f.jobs[r].lease == w.feed.jobs[r].lease
    requires forall r :: r in w.feed.runs ==> r in f.runs && f.runs[r] == w.feed.runs[r]
    requires forall k :: k in f.staging ==> k in w.feed.staging && f.staging[k] == w.feed.staging[k]
    requires forall r, n :: r in w.feed.runs && Open(w.feed.runs[r]) && (w.feed.runs[r].generation, n) in w.feed.staging
                            ==> (w.feed.runs[r].generation, n) in f.staging
    ensures Inv(w.(feed := f))
  {
    var w' := w.(feed := f);
    JobLeases(w);
    forall r | r in f.jobs ensures JobLeaseOk(w', r) {
      assert r in w.feed.jobs ==> JobLeaseOk(w, r);
    }
    forall y | y in w.scanners ensures ScannerOk(w', y, w.scanners[y]) {
      var x := w.scanners[y];
      assert ScannerOk(w, y, x);
      if x.pc.Walking? || x.pc.Fetched? || (x.pc.Ended? && x.pc.failure.None?) {
        if Holds(f, x.ticket) {
          assert Holds(w.feed, x.ticket) && JobFits(w.feed.jobs[x.ticket.run], w.feed.runs[x.ticket.run]);
        }
        WalkStays(w.feed, f, x.ticket, x.pc.visits);
      }
    }
  }

  lemma PruneKeeps(w: World, chosen: set<(Id, Native)>)
    requires Inv(w)
    ensures Inv(w.(feed := PruneStaging(w.feed, chosen)))
  {
    var f := PruneStaging(w.feed, chosen);
    SameRunsKeep(w.feed, f, w.published);
    forall r, n | r in w.feed.runs && Open(w.feed.runs[r]) && (w.feed.runs[r].generation, n) in w.feed.staging
      ensures (w.feed.runs[r].generation, n) in f.staging
    {
      forall x | x in w.feed.runs && w.feed.runs[x].generation == w.feed.runs[r].generation ensures Open(w.feed.runs[x]) {
        assert x != r ==> Apart(w.feed, x, r);
      }
    }
    OutsideKeeps(w, f);
  }

  lemma DropJobsKeeps(w: World, runs: set<Id>)
    requires Inv(w)
    ensures Inv(w.(feed := PruneJobs(w.feed, runs)))
  {
    SameRunsKeep(w.feed, PruneJobs(w.feed, runs), w.published);
    OutsideKeeps(w, PruneJobs(w.feed, runs));
  }

  lemma AdmitShape(f: Feed, id: Id, count: nat, limit: nat)
    ensures var f' := Admit(f, id, count, limit).0;
            && f'.staging == f.staging && f'.resources == f.resources
            && (f' == f || (id !in f.runs && f'.runs == f.runs[id := f'.runs[id]] && f'.jobs == f.jobs[id := f'.jobs[id]]
                            && id in f'.runs && id in f'.jobs && f'.jobs[id].lease.None?))
  {
  }

  lemma AdmitStepKeeps(w: World, id: Id, count: nat, limit: nat)
    requires Inv(w)
    ensures Inv(w.(feed := Admit(w.feed, id, count, limit).0))
  {
    AdmitKeeps(w.feed, w.published, id, count, limit);
    AdmitShape(w.feed, id, count, limit);
    OutsideKeeps(w, Admit(w.feed, id, count, limit).0);
  }

  lemma QuietStepKeeps(w: World, f: Feed)
    requires Inv(w) && f.runs == w.feed.runs && f.resources == w.feed.resources && f.staging == w.feed.staging && f.numbers == w.feed.numbers
    requires f.jobs.Keys == w.feed.jobs.Keys
    requires forall r :: r in f.jobs ==>
               f.jobs[r] == w.feed.jobs[r] || (!Active(f.jobs[r]) && f.jobs[r].lease == w.feed.jobs[r].lease && w.feed.jobs[r].state.JobQueued?)
    ensures Inv(w.(feed := f))
  {
    forall r | r in w.feed.jobs ensures JobFits(f.jobs[r], w.feed.runs[r]) {
      assert JobFits(w.feed.jobs[r], w.feed.runs[r]);
    }
    SameRunsKeep(w.feed, f, w.published);
    OutsideKeeps(w, f);
  }

  /** Time, credentials and a disabled connection touch no run, row or lease; a queued job may be cancelled. */
  lemma StillStep(w: World, s: Step)
    requires s.Tick? || s.NewCredential? || s.Disable?
    ensures var f := Apply(w, s).feed;
            && Apply(w, s) == w.(feed := f)
            && f.runs == w.feed.runs && f.resources == w.feed.resources && f.staging == w.feed.staging && f.numbers == w.feed.numbers
            && f.jobs.Keys == w.feed.jobs.Keys
            && forall r :: r in f.jobs ==>
                 (f.jobs[r] == w.feed.jobs[r] || (!Active(f.jobs[r]) && f.jobs[r].lease == w.feed.jobs[r].lease && w.feed.jobs[r].state.JobQueued?))
  {
  }

  lemma ReadFailsKeeps(w: World, worker: Id, code: FailureCode)
    requires Inv(w)
    ensures Inv(Apply(w, ReadFails(worker, code)))
  {
    var x := ScannerOf(w, worker);
    if x.pc.Walking? {
      assert ScannerOk(w, worker, x);
      PcKeeps(w, worker, Ended(Some(code), x.pc.visits));
    }
  }

  lemma CrashKeeps(w: World, worker: Id)
    requires Inv(w)
    ensures Inv(AtPc(w, worker, Idle))
  {
    OthersKeep(w, AtPc(w, worker, Idle), worker);
  }

  lemma StepKeeps(w: World, s: Step)
    requires Inv(w)
    ensures Inv(Apply(w, s))
  {
    match s
    case Take(_, _, _, _) => TakeKeeps(w, s);
    case Extend(worker) => ExtendKeeps(w, worker);
    case Begin(_, _, _) => BeginKeeps(w, s);
    case Read(_, _, _) => ReadKeeps(w, s);
    case ReadFails(worker, code) => ReadFailsKeeps(w, worker, code);
    case Stage(_, _) => StageKeeps(w, s);
    case Finish(_, _) => FinishKeeps(w, s);
    case Crash(worker) => CrashKeeps(w, worker);
    case Prune(chosen) => PruneKeeps(w, chosen);
    case DropJobs(runs) => DropJobsKeeps(w, runs);
    case AdmitRun(id, count, limit) => AdmitStepKeeps(w, id, count, limit);
    case _ =>
      StillStep(w, s);
      QuietStepKeeps(w, Apply(w, s).feed);
  }

  lemma {:induction false} RunKeeps(w: World, steps: seq<Step>)
    requires Inv(w)
    ensures Inv(Run(w, steps))
    decreases |steps|
  {
    if steps != [] {
      StepKeeps(w, steps[0]);
      RunKeeps(Apply(w, steps[0]), steps[1..]);
    }
  }

  // ---- Main results ----

  function Observed(rows: map<Native, Staged>): map<Native, Observation> {
    map n | n in rows :: rows[n].observation
  }

  lemma {:induction false} Reachable(w: World, steps: seq<Step>)
    requires Initial(w)
    ensures Inv(Run(w, steps))
  {
    RunKeeps(w, steps);
  }

  /** The published join shows exactly the live rows. */
  lemma ViewIsLive(f: Feed)
    requires RefsOk(f)
    ensures PublicView(f) == LiveRows(f)
  {
    forall n | n in f.resources ensures exists x :: x in f.runs && f.runs[x].generation == f.resources[n].generation && f.runs[x].status.Succeeded? {
      assert HasSucceeded(f, f.resources[n].generation);
    }
    assert PublicView(f).Keys == LiveRows(f).Keys;
  }

  lemma LiveAsPublished(f: Feed, g: Id, rows: map<Native, Staged>)
    requires PublishedAs(f.resources, g, rows)
    ensures LiveRows(f) == Observed(rows)
  {
    assert LiveRows(f).Keys == Observed(rows).Keys;
  }

  /**
   The public inventory is the complete page walk of the highest-numbered run that succeeded: one
   attempt, by one worker, from the empty cursor to the last page. Failed, partial, superseded and
   earlier attempts contribute nothing, and the join with the published generation drops no live row.
   */
  lemma PublicIsLastCompleteWalk(w: World, steps: seq<Step>, r: Id)
    requires Initial(w) && IsLast(Run(w, steps).feed, r)
    ensures var w' := Run(w, steps);
            && r in w'.published && CompleteWalk(w'.published[r])
            && PublicView(w'.feed) == Observed(RowsOf(w'.published[r]))
            && LiveRows(w'.feed) == PublicView(w'.feed)
  {
    Reachable(w, steps);
    var w' := Run(w, steps);
    ViewIsLive(w'.feed);
    LiveAsPublished(w'.feed, w'.feed.runs[r].generation, RowsOf(w'.published[r]));
  }

  /** Before any run succeeded there is nothing to see. */
  lemma NothingBeforeFirstSuccess(w: World, steps: seq<Step>)
    requires Initial(w) && forall r :: r in Run(w, steps).feed.runs ==> !Run(w, steps).feed.runs[r].status.Succeeded?
    ensures LiveRows(Run(w, steps).feed) == map[] == PublicView(Run(w, steps).feed)
  {
    Reachable(w, steps);
  }

  /** Requests coalesce: at most one run is pending or running, and it is the newest. */
  lemma OneOpenRun(w: World, steps: seq<Step>, a: Id, b: Id)
    requires Initial(w) && a in Run(w, steps).feed.runs && b in Run(w, steps).feed.runs && Open(Run(w, steps).feed.runs[a]) && a != b
    ensures !Open(Run(w, steps).feed.runs[b]) && Run(w, steps).feed.runs[b].number < Run(w, steps).feed.runs[a].number
  {
    Reachable(w, steps);
    var f := Run(w, steps).feed;
    assert Apart(f, a, b) && Apart(f, b, a);
  }

  lemma FinishResources(w: World, s: Step)
    requires Inv(w) && s.Finish?
    ensures var f, f' := w.feed, Apply(w, s).feed;
            f'.resources == f.resources || exists g, number :: f'.resources == Tombstone(f, Upsert(f, g, number), g, number)
  {
    var x := ScannerOf(w, s.worker);
    if x.pc.Ended? {
      CompleteShape(w.feed, x.ticket, x.pc.failure, s.allowed);
      if Complete(w.feed, x.ticket, x.pc.failure, s.allowed).1.Committed? && x.pc.failure.None? {
        var r := w.feed.runs[x.ticket.run];
        assert Apply(w, s).feed.resources == Tombstone(w.feed, Upsert(w.feed, r.generation, r.number), r.generation, r.number);
      }
    }
  }

  lemma ScanResources(f: Feed, t: Ticket, version: int, page: Page, number: nat, allowed: bool, generation: Id)
    ensures StartScan(f, t, allowed, generation).0.resources == f.resources
    ensures StagePage(f, t, version, page, number, allowed).0.resources == f.resources
  {
  }

  lemma LeaseResources(w: World, s: Step)
    requires s.Take? || s.Extend?
    ensures Apply(w, s).feed.resources == w.feed.resources
  {
    if s.Take? {
      ClaimShape(w.feed, Ticket(s.run, s.worker, s.token), s.at);
    } else {
      RenewShape(w.feed, ScannerOf(w, s.worker).ticket);
    }
  }

  lemma ScanStepResources(w: World, s: Step)
    requires s.Begin? || s.Stage?
    ensures Apply(w, s).feed.resources == w.feed.resources
  {
    var x := ScannerOf(w, s.worker);
    if s.Begin? {
      ScanResources(w.feed, x.ticket, 0, Page([], "", 0), 0, s.allowed, s.generation);
    } else if x.pc.Fetched? {
      ScanResources(w.feed, x.ticket, x.pc.version, x.pc.page, |x.pc.visits| + 1, s.allowed, 0);
    }
  }

  lemma StepResources(w: World, s: Step)
    requires Inv(w)
    ensures var f, f' := w.feed, Apply(w, s).feed;
            f'.resources == f.resources || exists g, number :: f'.resources == Tombstone(f, Upsert(f, g, number), g, number)
  {
    if s.Finish? {
      FinishResources(w, s);
    } else if s.Take? || s.Extend? {
      LeaseResources(w, s);
    } else if s.Begin? || s.Stage? {
      ScanStepResources(w, s);
    } else {
      OtherResources(w, s);
    }
  }

  lemma OtherResources(w: World, s: Step)
    requires !s.Finish? && !s.Take? && !s.Extend? && !s.Begin? && !s.Stage?
    ensures Apply(w, s).feed.resources == w.feed.resources
  {
    if s.AdmitRun? {
      AdmitShape(w.feed, s.id, s.count, s.limit);
    }
  }

  /** A resource keeps its identity through tombstones and reappearance, and its version counts every change. */
  lemma {:induction false} IdentityStays(w: World, steps: seq<Step>, n: Native)
    requires Inv(w) && n in w.feed.resources
    ensures var rows, rows' := w.feed.resources, Run(w, steps).feed.resources;
            && n in rows' && rows'[n].id == rows[n].id && rows'[n].version >= rows[n].version
            && (rows'[n].version == rows[n].version ==> rows'[n] == rows[n])
    decreases |steps|
  {
    if steps != [] {
      StepResources(w, steps[0]);
      var f, f' := w.feed, Apply(w, steps[0]).feed;
      if f'.resources != f.resources {
        var g, number :| f'.resources == Tombstone(f, Upsert(f, g, number), g, number);
        RowsStay(f, g, number, n);
      }
      StepKeeps(w, steps[0]);
      IdentityStays(Apply(w, steps[0]), steps[1..], n);
    }
  }
}
