/**
 Which admitted syncs can still end. A run stays open for ever exactly when nobody can claim its job before the
 deadline and nobody who holds its lease can write a terminal status; every later request then coalesces with it.
 */
module SyncClosing {
  import opened Options
  import opened Tables
  import opened Inventory
  import opened InventoryRuns

  // ---- The condition ----

  /** A later claim is possible: attempts are left, and the job is or becomes free before its deadline. */
  predicate ClaimableLater(j: Job) {
    && j.attempts < ATTEMPTS_MAX
    && ((j.state.JobQueued? && j.nextRun < j.deadline)
        || (j.state.JobRunning? && j.lease.Some? && j.lease.value.expires < j.deadline))
  }

  /** The credential a complete scan was made with is still current on an active connection. */
  predicate Publishable(f: Feed, r: Id) {
    && r in f.runs && f.active && f.runs[r].credential.Some?
    && (f.runs[r].credential.value == 0 || f.runs[r].credential.value == f.credential)
  }

  /** A worker that holds the live lease, and, if it has scanned everything, may still publish. */
  predicate Finisher(w: World, r: Id, id: Id) {
    && id in w.scanners
    && var x := w.scanners[id];
    && !x.pc.Idle? && x.ticket.run == r && Fenced(w.feed, x.ticket)
    && (x.pc.Ended? && x.pc.failure.None? ==> Publishable(w.feed, r))
  }

  predicate JobLeft(f: Feed, r: Id) {
    r in f.jobs && f.now < f.jobs[r].deadline && ClaimableLater(f.jobs[r])
  }

  predicate Closable(w: World, r: Id) {
    JobLeft(w.feed, r) || exists id :: id in w.scanners && Finisher(w, r, id)
  }

  /** After these steps the run has a terminal status. */
  predicate ClosedBy(w: World, steps: seq<Step>, r: Id) {
    r in Run(w, steps).feed.runs && !Open(Run(w, steps).feed.runs[r])
  }

  // ---- Closable runs can be closed ----

  lemma {:induction false} RunSplits(w: World, a: seq<Step>, b: seq<Step>)
    ensures Run(w, a + b) == Run(Run(w, a), b)
    decreases |a|
  {
    if a == [] {
      assert a + b == b;
    } else {
      assert (a + b)[1..] == a[1..] + b;
      RunSplits(Apply(w, a[0]), a[1..], b);
    }
  }

  lemma RunOne(w: World, s: Step)
    ensures Run(w, [s]) == Apply(w, s)
  {
    assert Run(Apply(w, s), []) == Apply(w, s);
  }

  lemma RunTwo(w: World, a: Step, b: Step)
    ensures Run(w, [a, b]) == Apply(Apply(w, a), b)
  {
    assert [a, b][1..] == [b];
    RunOne(Apply(w, a), b);
  }

  /** Recording a failure needs only the live lease. */
  lemma FailureCloses(w: World, r: Id, id: Id)
    requires Finisher(w, r, id) && r in w.feed.runs && Open(w.feed.runs[r])
    requires w.scanners[id].pc.Ended? && w.scanners[id].pc.failure.Some?
    ensures r in Apply(w, Finish(id, false)).feed.runs && !Open(Apply(w, Finish(id, false)).feed.runs[r])
  {
  }

  lemma CompleteCloses(f: Feed, t: Ticket)
    requires Fenced(f, t) && t.run in f.runs && Open(f.runs[t.run]) && f.runs[t.run].complete && Publishable(f, t.run)
    ensures var f' := Complete(f, t, None, true).0; t.run in f'.runs && !Open(f'.runs[t.run])
  {
  }

  lemma CompleteWhenEnded(w: World, id: Id)
    requires Inv(w) && id in w.scanners && w.scanners[id].pc.Ended? && w.scanners[id].pc.failure.None?
    requires Fenced(w.feed, w.scanners[id].ticket) && w.scanners[id].ticket.run in w.feed.runs
    ensures w.feed.runs[w.scanners[id].ticket.run].complete
  {
    assert ScannerOk(w, id, w.scanners[id]);
  }

  /** So does publishing, once the scan is complete and its credential current. */
  lemma PublicationCloses(w: World, r: Id, id: Id)
    requires Inv(w) && Finisher(w, r, id) && r in w.feed.runs && Open(w.feed.runs[r])
    requires w.scanners[id].pc.Ended? && w.scanners[id].pc.failure.None?
    ensures r in Apply(w, Finish(id, true)).feed.runs && !Open(Apply(w, Finish(id, true)).feed.runs[r])
  {
    CompleteWhenEnded(w, id);
    CompleteCloses(w.feed, w.scanners[id].ticket);
  }

  /** The step at which a worker in this place is told that it may not go on. */
  function DenialOf(pc: Pc, id: Id): Step {
    match pc
    case Walking(_, _) => ReadFails(id, Unavailable)
    case Fetched(_, _, _) => Stage(id, false)
    case _ => Begin(id, false, 0)
  }

  /** One step makes a holder's scan fail. */
  lemma DeniedEnds(w: World, r: Id, id: Id)
    requires Finisher(w, r, id) && !w.scanners[id].pc.Ended?
    ensures var w' := Apply(w, DenialOf(w.scanners[id].pc, id));
      w'.feed == w.feed && Finisher(w', r, id) && w'.scanners[id].pc.Ended? && w'.scanners[id].pc.failure.Some?
  {
  }

  lemma FinisherCloses(w: World, r: Id, id: Id) returns (steps: seq<Step>)
    requires Inv(w) && Finisher(w, r, id) && r in w.feed.runs && Open(w.feed.runs[r])
    ensures ClosedBy(w, steps, r)
  {
    if !w.scanners[id].pc.Ended? {
      var s := DenialOf(w.scanners[id].pc, id);
      DeniedEnds(w, r, id);
      FailureCloses(Apply(w, s), r, id);
      RunTwo(w, s, Finish(id, false));
      steps := [s, Finish(id, false)];
    } else if w.scanners[id].pc.failure.Some? {
      FailureCloses(w, r, id);
      RunOne(w, Finish(id, false));
      steps := [Finish(id, false)];
    } else {
      PublicationCloses(w, r, id);
      RunOne(w, Finish(id, true));
      steps := [Finish(id, true)];
    }
  }

  /** Some identifier was never used. */
  lemma {:induction false} Unused(s: set<Id>) returns (x: Id)
    ensures forall y :: y in s ==> y < x
    decreases |s|
  {
    x := 0;
    if s != {} {
      var y :| y in s;
      x := Unused(s - {y});
      assert forall z :: z in s ==> z == y || z in s - {y};
      if x <= y {
        x := y + 1;
      }
    }
  }

  /** When the job will be free. */
  function FreeAt(j: Job): int {
    if j.state.JobQueued? then j.nextRun else if j.lease.Some? then j.lease.value.expires else 0
  }

  lemma ClaimMakesFinisher(w: World, r: Id, me: Id, token: Id)
    requires JobLeft(w.feed, r) && FreeAt(w.feed.jobs[r]) <= w.feed.now && me !in w.scanners && token !in w.issued
    ensures var w' := Apply(w, Take(me, r, token, w.feed.now)); w'.feed.runs == w.feed.runs && Finisher(w', r, me)
  {
  }

  lemma WaitKeepsJob(w: World, r: Id, seconds: nat)
    requires JobLeft(w.feed, r) && w.feed.now + seconds < w.feed.jobs[r].deadline
    ensures var w' := Apply(w, Tick(seconds)); JobLeft(w'.feed, r) && w' == w.(feed := w.feed.(now := w.feed.now + seconds))
  {
  }

  lemma JobLeftCloses(w: World, r: Id) returns (steps: seq<Step>)
    requires Inv(w) && JobLeft(w.feed, r) && r in w.feed.runs && Open(w.feed.runs[r])
    ensures ClosedBy(w, steps, r)
  {
    var me := Unused(w.scanners.Keys);
    var token := Unused(w.issued.Keys);
    var free, now := FreeAt(w.feed.jobs[r]), w.feed.now;
    var wait := if free > now then free - now else 0;
    WaitKeepsJob(w, r, wait);
    var w1 := Apply(w, Tick(wait));
    StepKeeps(w, Tick(wait));
    var take := Take(me, r, token, w1.feed.now);
    ClaimMakesFinisher(w1, r, me, token);
    StepKeeps(w1, take);
    var rest := FinisherCloses(Apply(w1, take), r, me);
    RunTwo(w, Tick(wait), take);
    RunSplits(w, [Tick(wait), take], rest);
    steps := [Tick(wait), take] + rest;
  }

  // ---- Other runs stay open for ever ----

  /** What times and credentials stored by the steps satisfy. */
  ghost predicate Timely(w: World) {
    && (forall r :: r in w.feed.jobs && w.feed.jobs[r].lease.Some? ==> w.feed.jobs[r].lease.value.expires <= w.feed.now + LEASE_SECONDS)
    && (forall r :: r in w.feed.runs && w.feed.runs[r].credential.Some? ==> w.feed.runs[r].credential.value <= w.feed.credential)
  }

  lemma LeaseStepTimely(w: World, s: Step)
    requires Timely(w) && (s.Take? || s.Extend?)
    ensures Timely(Apply(w, s))
  {
  }

  lemma ScanStepTimely(w: World, s: Step)
    requires Inv(w) && Timely(w) && (s.Begin? || s.Stage?)
    ensures Timely(Apply(w, s))
  {
  }

  lemma CompleteTimely(f: Feed, t: Ticket, failure: Option<FailureCode>, allowed: bool)
    ensures var f' := Complete(f, t, failure, allowed).0;
      && f'.now == f.now && f'.credential == f.credential
      && (forall r :: r in f'.jobs ==> r in f.jobs && (f'.jobs[r].lease == f.jobs[r].lease || f'.jobs[r].lease.None?))
      && (forall r :: r in f'.runs ==> r in f.runs && f'.runs[r].credential == f.runs[r].credential)
  {
  }

  lemma FinishStepTimely(w: World, s: Step)
    requires Timely(w) && s.Finish?
    ensures Timely(Apply(w, s))
  {
    var x := ScannerOf(w, s.worker);
    if x.pc.Ended? {
      CompleteTimely(w.feed, x.ticket, x.pc.failure, s.allowed);
    }
  }

  lemma OutsideStepTimely(w: World, s: Step)
    requires Timely(w) && (s.Tick? || s.NewCredential? || s.Disable? || s.AdmitRun? || s.Prune? || s.DropJobs?)
    ensures Timely(Apply(w, s))
  {
  }

  lemma PlaceStepTimely(w: World, s: Step)
    requires Timely(w) && (s.Read? || s.ReadFails? || s.Crash?)
    ensures Timely(Apply(w, s))
  {
  }

  lemma StepTimely(w: World, s: Step)
    requires Inv(w) && Timely(w)
    ensures Timely(Apply(w, s))
  {
    if s.Take? || s.Extend? {
      LeaseStepTimely(w, s);
    } else if s.Begin? || s.Stage? {
      ScanStepTimely(w, s);
    } else if s.Finish? {
      FinishStepTimely(w, s);
    } else if s.Read? || s.ReadFails? || s.Crash? {
      PlaceStepTimely(w, s);
    } else {
      OutsideStepTimely(w, s);
    }
  }

  lemma OpenIsOne(f: Feed, r: Id, x: Id)
    requires OrderOk(f) && r in f.runs && Open(f.runs[r]) && x in f.runs && Open(f.runs[x])
    ensures x == r
  {
    assert x != r ==> InventoryRuns.Apart(f, r, x) && InventoryRuns.Apart(f, x, r);
  }

  /** Only the open run's job can be claimed or held. */
  lemma FencedIsOpen(w: World, r: Id, t: Ticket)
    requires Inv(w) && r in w.feed.runs && Open(w.feed.runs[r]) && Fenced(w.feed, t)
    ensures t.run == r
  {
    assert JobFits(w.feed.jobs[t.run], w.feed.runs[t.run]);
    OpenIsOne(w.feed, r, t.run);
  }

  ghost predicate Stuck(w: World, r: Id) {
    r in w.feed.runs && Open(w.feed.runs[r]) && !Closable(w, r)
  }

  /** The step wrote no run and no resource, and the run is still stuck. */
  ghost predicate StaysStuck(w: World, w': World, r: Id) {
    w'.feed.runs == w.feed.runs && w'.feed.resources == w.feed.resources && Stuck(w', r)
  }

  lemma NotFinisher(w: World, r: Id, id: Id)
    requires !Closable(w, r)
    ensures !Finisher(w, r, id)
  {
  }

  /** Whoever could write a run's status is none of the workers of a stuck run. */
  lemma StuckFence(w: World, r: Id, id: Id)
    requires Inv(w) && Stuck(w, r) && id in w.scanners && !w.scanners[id].pc.Idle? && Fenced(w.feed, w.scanners[id].ticket)
    ensures w.scanners[id].ticket.run == r && w.scanners[id].pc.Ended? && w.scanners[id].pc.failure.None? && !Publishable(w.feed, r)
  {
    FencedIsOpen(w, r, w.scanners[id].ticket);
    NotFinisher(w, r, id);
  }

  /** A worker without a live lease, or one that gives up, changes places; nothing is written. */
  lemma PlaceStays(w: World, w': World, r: Id, me: Id)
    requires Inv(w) && Stuck(w, r) && w'.feed == w.feed
    requires forall y :: y in w'.scanners && y != me ==> y in w.scanners && w'.scanners[y] == w.scanners[y]
    requires me in w'.scanners ==> w'.scanners[me].pc.Idle? || !Fenced(w.feed, w'.scanners[me].ticket)
    ensures StaysStuck(w, w', r)
  {
    forall y | y in w'.scanners ensures !Finisher(w', r, y) {
      if y != me {
        NotFinisher(w, r, y);
      }
    }
  }

  /** Time passes, jobs go away, authority shrinks: no lease comes to life. */
  lemma FeedStays(w: World, f: Feed, r: Id)
    requires Stuck(w, r) && f.runs == w.feed.runs && f.resources == w.feed.resources
    requires forall id :: id in w.scanners && Fenced(f, w.scanners[id].ticket) ==> Fenced(w.feed, w.scanners[id].ticket)
    requires Publishable(f, r) ==> Publishable(w.feed, r)
    requires JobLeft(f, r) ==> JobLeft(w.feed, r)
    ensures StaysStuck(w, w.(feed := f), r)
  {
    forall y | y in w.scanners ensures !Finisher(w.(feed := f), r, y) {
      NotFinisher(w, r, y);
    }
  }

  lemma TakeStuck(w: World, s: Step, r: Id)
    requires Inv(w) && Timely(w) && Stuck(w, r) && s.Take?
    ensures StaysStuck(w, Apply(w, s), r)
  {
    var t := Ticket(s.run, s.worker, s.token);
    var w' := Apply(w, s);
    if w' != w {
      ClaimShape(w.feed, t, s.at);
      assert JobFits(w.feed.jobs[s.run], w.feed.runs[s.run]);
      OpenIsOne(w.feed, r, s.run);
      assert w.feed.jobs[r].deadline <= w.feed.now;
      forall y | y in w'.scanners ensures !Finisher(w', r, y) {
      }
    }
  }

  /** A renewal by a worker that may not publish any more leads no further than to the deadline. */
  lemma ExtendStuck(w: World, worker: Id, r: Id)
    requires Inv(w) && Timely(w) && Stuck(w, r)
    ensures StaysStuck(w, Apply(w, Extend(worker)), r)
  {
    var x := ScannerOf(w, worker);
    if !x.pc.Idle? && Fenced(w.feed, x.ticket) {
      StuckFence(w, r, worker);
      var j := w.feed.jobs[r];
      assert j.attempts >= ATTEMPTS_MAX || j.lease.value.expires >= j.deadline;
      RenewShape(w.feed, x.ticket);
      FeedStays(w, Apply(w, Extend(worker)).feed, r);
    }
  }

  lemma ReadStuck(w: World, s: Step, r: Id)
    requires Inv(w) && Stuck(w, r) && (s.Read? || s.ReadFails?)
    ensures StaysStuck(w, Apply(w, s), r)
  {
    var x := ScannerOf(w, s.worker);
    if x.pc.Walking? {
      if Fenced(w.feed, x.ticket) {
        StuckFence(w, r, s.worker);
      }
      PlaceStays(w, Apply(w, s), r, s.worker);
    }
  }

  /** Without a live lease nothing is committed. */
  lemma FenceLost(f: Feed, t: Ticket, version: int, page: Page, number: nat, allowed: bool, generation: Id, failure: Option<FailureCode>)
    requires !Fenced(f, t)
    ensures StartScan(f, t, allowed, generation).0 == f && !StartScan(f, t, allowed, generation).1.Committed?
    ensures StagePage(f, t, version, page, number, allowed).0 == f && !StagePage(f, t, version, page, number, allowed).1.Committed?
    ensures Complete(f, t, failure, allowed).0 == f && !Complete(f, t, failure, allowed).1.Committed?
  {
  }

  lemma BeginStuck(w: World, s: Step, r: Id)
    requires Inv(w) && Stuck(w, r) && s.Begin?
    ensures StaysStuck(w, Apply(w, s), r)
  {
    var x := ScannerOf(w, s.worker);
    if x.pc.Holding? {
      if Fenced(w.feed, x.ticket) {
        StuckFence(w, r, s.worker);
      }
      FenceLost(w.feed, x.ticket, 0, Page([], "", 0), 0, s.allowed, s.generation, None);
      PlaceStays(w, Apply(w, s), r, s.worker);
    }
  }

  lemma StageStuck(w: World, s: Step, r: Id)
    requires Inv(w) && Stuck(w, r) && s.Stage?
    ensures StaysStuck(w, Apply(w, s), r)
  {
    var x := ScannerOf(w, s.worker);
    if x.pc.Fetched? {
      if Fenced(w.feed, x.ticket) {
        StuckFence(w, r, s.worker);
      }
      FenceLost(w.feed, x.ticket, x.pc.version, x.pc.page, |x.pc.visits| + 1, s.allowed, 0, None);
      PlaceStays(w, Apply(w, s), r, s.worker);
    }
  }

  lemma StalePublication(f: Feed, t: Ticket, allowed: bool)
    requires t.run in f.runs && !Publishable(f, t.run)
    ensures Complete(f, t, None, allowed).0 == f && !Complete(f, t, None, allowed).1.Committed?
  {
  }

  lemma FinishStuck(w: World, s: Step, r: Id)
    requires Inv(w) && Stuck(w, r) && s.Finish?
    ensures StaysStuck(w, Apply(w, s), r)
  {
    var x := ScannerOf(w, s.worker);
    if x.pc.Ended? {
      if Fenced(w.feed, x.ticket) {
        StuckFence(w, r, s.worker);
        StalePublication(w.feed, x.ticket, s.allowed);
      } else {
        FenceLost(w.feed, x.ticket, 0, Page([], "", 0), 0, s.allowed, 0, x.pc.failure);
      }
      PlaceStays(w, Apply(w, s), r, s.worker);
    }
  }

  lemma OutsideStuck(w: World, s: Step, r: Id)
    requires Inv(w) && Timely(w) && Stuck(w, r)
    requires s.Tick? || s.NewCredential? || s.Disable? || s.AdmitRun? || s.Prune? || s.DropJobs?
    ensures StaysStuck(w, Apply(w, s), r)
  {
    FeedStays(w, Apply(w, s).feed, r);
  }

  lemma StuckStep(w: World, s: Step, r: Id)
    requires Inv(w) && Timely(w) && Stuck(w, r)
    ensures StaysStuck(w, Apply(w, s), r)
  {
    match s
    case Take(_, _, _, _) => TakeStuck(w, s, r);
    case Extend(worker) => ExtendStuck(w, worker, r);
    case Begin(_, _, _) => BeginStuck(w, s, r);
    case Read(_, _, _) => ReadStuck(w, s, r);
    case ReadFails(_, _) => ReadStuck(w, s, r);
    case Stage(_, _) => StageStuck(w, s, r);
    case Finish(_, _) => FinishStuck(w, s, r);
    case Crash(worker) => PlaceStays(w, Apply(w, s), r, worker);
    case _ => OutsideStuck(w, s, r);
  }

  /** Over every later run such a sync stays open, every request coalesces with it, and nothing is published. */
  lemma {:induction false} StuckForever(w: World, steps: seq<Step>, r: Id, id: Id, count: nat, limit: nat)
    requires Inv(w) && Timely(w) && Stuck(w, r)
    ensures var f := Run(w, steps).feed;
            && f.runs == w.feed.runs && f.resources == w.feed.resources
            && Admit(f, id, count, limit) == (f, Committed)
    decreases |steps|
  {
    if steps != [] {
      StuckStep(w, steps[0], r);
      StepKeeps(w, steps[0]);
      StepTimely(w, steps[0]);
      StuckForever(Apply(w, steps[0]), steps[1..], r, id, count, limit);
    }
  }

  // ---- Exactly ----

  lemma {:induction false} ReachableTimely(w: World, steps: seq<Step>)
    requires Inv(w) && Timely(w)
    ensures Inv(Run(w, steps)) && Timely(Run(w, steps))
    decreases |steps|
  {
    if steps != [] {
      StepKeeps(w, steps[0]);
      StepTimely(w, steps[0]);
      ReachableTimely(Apply(w, steps[0]), steps[1..]);
    }
  }

  /** An open sync can still reach a terminal status exactly if it is closable. */
  lemma ClosesExactly(w: World, r: Id)
    requires Inv(w) && Timely(w) && r in w.feed.runs && Open(w.feed.runs[r])
    ensures (exists steps :: ClosedBy(w, steps, r)) <==> Closable(w, r)
  {
    if Closable(w, r) {
      var steps;
      if JobLeft(w.feed, r) {
        steps := JobLeftCloses(w, r);
      } else {
        var id :| id in w.scanners && Finisher(w, r, id);
        steps := FinisherCloses(w, r, id);
      }
      assert ClosedBy(w, steps, r);
    } else {
      forall steps ensures !ClosedBy(w, steps, r) {
        StuckForever(w, steps, r, 0, 0, 0);
      }
    }
  }

  /** The same in every state that an installation can reach. */
  lemma ReachableClosesExactly(w: World, steps: seq<Step>, r: Id)
    requires Initial(w) && r in Run(w, steps).feed.runs && Open(Run(w, steps).feed.runs[r])
    ensures (exists more :: ClosedBy(Run(w, steps), more, r)) <==> Closable(Run(w, steps), r)
  {
    ReachableTimely(w, steps);
    ClosesExactly(Run(w, steps), r);
  }

  // ---- Syncs that never end ----

  /** A worker claims the job in its last minute and dies: its lease lasts until the deadline. */
  const LAST_MINUTE: seq<Step> := [AdmitRun(1, 0, 10), Tick(1750), Take(7, 1, 9, 1750), Begin(7, true, 1), Crash(7)]

  /** The connection is disabled while the job is queued. */
  const DISABLED: seq<Step> := [AdmitRun(1, 0, 10), Disable]

  function NewFeed(): World {
    World(Feed(0, 1, true, map[], map[], map[], map[], 0), map[], map[], map[])
  }

  lemma LastMinuteReached()
    ensures Initial(NewFeed())
    ensures var w := Run(NewFeed(), LAST_MINUTE);
      && 1 in w.feed.runs && Open(w.feed.runs[1]) && 1 in w.feed.jobs && Active(w.feed.jobs[1])
      && w.feed.now < w.feed.jobs[1].deadline && !Closable(w, 1) && w.feed.resources == map[]
  {
    var w0 := NewFeed();
    var w1 := Apply(w0, LAST_MINUTE[0]);
    var w2 := Apply(w1, LAST_MINUTE[1]);
    var w3 := Apply(w2, LAST_MINUTE[2]);
    var w4 := Apply(w3, LAST_MINUTE[3]);
    var w5 := Apply(w4, LAST_MINUTE[4]);
    RunTwo(w0, LAST_MINUTE[0], LAST_MINUTE[1]);
    RunTwo(w2, LAST_MINUTE[2], LAST_MINUTE[3]);
    RunOne(w4, LAST_MINUTE[4]);
    RunSplits(w0, LAST_MINUTE[..2], LAST_MINUTE[2..4]);
    RunSplits(w0, LAST_MINUTE[..4], LAST_MINUTE[4..]);
    assert w1.feed.jobs[1] == Job(JobQueued, 0, None, 0, 1800, None);
    assert w3.feed.jobs[1] == Job(JobRunning, 0, Some(Lease(7, 9, 1800)), 1, 1800, None);
    assert w5.scanners[7].pc.Idle?;
    assert LAST_MINUTE == LAST_MINUTE[..4] + LAST_MINUTE[4..];
  }

  lemma DisabledReached()
    ensures var w := Run(NewFeed(), DISABLED);
      1 in w.feed.runs && Open(w.feed.runs[1]) && 1 in w.feed.jobs && w.feed.now < w.feed.jobs[1].deadline && !Closable(w, 1)
      && w.feed.resources == map[]
  {
    RunTwo(NewFeed(), DISABLED[0], DISABLED[1]);
    assert DISABLED == [DISABLED[0], DISABLED[1]];
  }

  lemma LostForever(steps: seq<Step>, more: seq<Step>, r: Id, id: Id, count: nat, limit: nat)
    requires Stuck(Run(NewFeed(), steps), r)
    ensures var f := Run(NewFeed(), steps + more).feed;
      && f.runs == Run(NewFeed(), steps).feed.runs && f.resources == Run(NewFeed(), steps).feed.resources
      && Admit(f, id, count, limit) == (f, Committed)
  {
    ReachableTimely(NewFeed(), steps);
    StuckForever(Run(NewFeed(), steps), more, r, id, count, limit);
    RunSplits(NewFeed(), steps, more);
  }

  /** From an empty installation a sync can be lost: nothing that happens later ends it or publishes anything. */
  lemma SyncsCanBeLost(steps: seq<Step>, more: seq<Step>, id: Id, count: nat, limit: nat)
    requires steps == LAST_MINUTE || steps == DISABLED
    ensures var f := Run(NewFeed(), steps + more).feed;
      1 in f.runs && Open(f.runs[1]) && f.resources == map[] && Admit(f, id, count, limit) == (f, Committed)
  {
    if steps == LAST_MINUTE {
      LastMinuteReached();
    } else {
      DisabledReached();
    }
    LostForever(steps, more, 1, id, count, limit);
  }
}
