/**
 The inventory of one connection, scope and resource type: admitted runs, their jobs, staged rows
 and public resources. A scan stages page by page under a lease and publishes all or nothing. Each
 function is one transaction; what a scan asks of the provider arrives as an argument.
 */
module Inventory {
  import opened Options
  import opened Tables

  type Native = nat

  /** Everything observed about one native object; `timed` says it carries an observation time. */
  datatype Observation = Observation(body: nat, timed: bool)

  datatype Item = Item(native: Native, observation: Observation, id: Id)

  /** One provider page: `bytes` is its encoded size, the empty `next` marks the last page. */
  datatype Page = Page(data: seq<Item>, next: string, bytes: nat)

  datatype Status = Pending | Running | Succeeded | Failed | Cancelled

  datatype SyncRun = SyncRun(number: nat, generation: Id, status: Status, started: bool, complete: bool, pages: nat, credential: Option<int>)

  datatype Staged = Staged(id: Id, observation: Observation)

  datatype Row = Row(id: Id, observation: Observation, generation: Id, tombstoned: bool, version: nat)

  datatype Feed = Feed(
    now: int, credential: int, active: bool,
    runs: map<Id, SyncRun>, jobs: map<Id, Job>,
    staging: map<(Id, Native), Staged>, resources: map<Native, Row>, numbers: nat)

  datatype FailureCode = PermissionDenied | RateLimited | ResponseInvalid | LimitReached | Unavailable

  datatype Outcome = Committed | ScanFailure(code: FailureCode) | ScanUnavailable | LeaseLost | QuotaReached

  /** A claim on a run's job. */
  datatype Ticket = Ticket(run: Id, owner: Id, token: Id)

  const PAGES_MAX := 100
  const ROWS_MAX := 10000
  const PAGE_MAX := 200
  const CURSOR_MAX := 512
  const PAGE_BYTES := 8 * 1024 * 1024
  const SCAN_BYTES := 32 * 1024 * 1024
  const REFRESH_SECONDS := 30 * 60

  predicate Open(r: SyncRun) {
    r.status.Pending? || r.status.Running?
  }

  // ---- Admission ----

  /** Coalesces with a pending or running sync; otherwise admits a new one. `count` are the workspace's active jobs. */
  function Admit(f: Feed, id: Id, count: nat, limit: nat): (Feed, Outcome) {
    if exists r :: r in f.runs && Open(f.runs[r]) then (f, Committed)
    else if count >= limit then (f, QuotaReached)
    else if id in f.runs || exists r :: r in f.runs && f.runs[r].generation == id then (f, ScanUnavailable)
    else
      (f.(runs := f.runs[id := SyncRun(f.numbers, id, Pending, false, false, 0, None)],
          jobs := f.jobs[id := Job(JobQueued, f.now, None, 0, f.now + REFRESH_SECONDS, None)],
          numbers := f.numbers + 1), Committed)
  }

  // ---- Leases ----

  predicate Fenced(f: Feed, t: Ticket) {
    && t.run in f.jobs
    && var j := f.jobs[t.run];
    && j.state.JobRunning? && j.lease.Some? && j.lease.value.owner == t.owner && j.lease.value.token == t.token
    && j.lease.value.expires > f.now && j.deadline > f.now
  }

  function ClaimRun(f: Feed, t: Ticket, at: int): (Feed, Outcome) {
    if t.run !in f.jobs then (f, LeaseLost)
    else
      var j := f.jobs[t.run];
      if j.deadline <= at || j.attempts >= ATTEMPTS_MAX
         || !((j.state.JobQueued? && j.nextRun <= at) || (j.state.JobRunning? && j.lease.Some? && j.lease.value.expires <= at)) then (f, LeaseLost)
      else
        var lease := Lease(t.owner, t.token, Min(at + LEASE_SECONDS, j.deadline));
        (f.(jobs := f.jobs[t.run := j.(state := JobRunning, lease := Some(lease), attempts := j.attempts + 1)]), Committed)
  }

  function RenewRun(f: Feed, t: Ticket): (Feed, Outcome) {
    if !Fenced(f, t) then (f, LeaseLost)
    else
      var j := f.jobs[t.run];
      (f.(jobs := f.jobs[t.run := j.(lease := Some(Lease(t.owner, t.token, Min(f.now + LEASE_SECONDS, j.deadline))))]), Committed)
  }

  /** Fresh authority and the lease, checked together before anything is written; version 0 stands for any credential. */
  function ScanAuthority(f: Feed, t: Ticket, version: int, allowed: bool): Outcome {
    if !allowed || !f.active || (version != 0 && version != f.credential) then ScanFailure(PermissionDenied)
    else if !Fenced(f, t) || t.run !in f.runs || !Open(f.runs[t.run]) then LeaseLost
    else Committed
  }

  // ---- Scanning ----

  function DropGeneration(staging: map<(Id, Native), Staged>, generation: Id): map<(Id, Native), Staged> {
    map k | k in staging && k.0 != generation :: staging[k]
  }

  /** A new attempt discards what an interrupted one staged; a restart takes a fresh generation. */
  function StartScan(f: Feed, t: Ticket, allowed: bool, generation: Id): (Feed, Outcome) {
    if !ScanAuthority(f, t, 0, allowed).Committed? then (f, ScanAuthority(f, t, 0, allowed))
    else
      var r := f.runs[t.run];
      var next := if r.started then generation else r.generation;
      if r.started && (exists x :: x in f.runs && f.runs[x].generation == generation) then (f, ScanUnavailable)
      else
        (f.(staging := DropGeneration(f.staging, r.generation),
            runs := f.runs[t.run := r.(generation := next, status := Running, started := true, complete := false, pages := 0,
                                       credential := Some(f.credential))]), Committed)
  }

  /** Inserts a page's rows; an untimed row, or a native identity staged before, rejects the page. */
  function StageRows(staging: map<(Id, Native), Staged>, generation: Id, data: seq<Item>): Option<map<(Id, Native), Staged>>
    decreases |data|
  {
    if data == [] then Some(staging)
    else if !data[0].observation.timed || (generation, data[0].native) in staging then None
    else StageRows(staging[(generation, data[0].native) := Staged(data[0].id, data[0].observation)], generation, data[1..])
  }

  function StagePage(f: Feed, t: Ticket, version: int, page: Page, number: nat, allowed: bool): (Feed, Outcome) {
    if !ScanAuthority(f, t, version, allowed).Committed? then (f, ScanAuthority(f, t, version, allowed))
    else
      var r := f.runs[t.run];
      var staged := StageRows(f.staging, r.generation, page.data);
      if staged.None? then (f, ScanFailure(ResponseInvalid))
      else (f.(staging := staged.value, runs := f.runs[t.run := r.(pages := number, complete := page.next == "")]), Committed)
  }

  // ---- Publication ----

  /** Some run of this generation was admitted no later than `number`. */
  predicate AdmittedBy(f: Feed, generation: Id, number: nat) {
    exists x :: x in f.runs && f.runs[x].generation == generation && f.runs[x].number <= number
  }

  /** Staged rows of the generation replace or add resources. */
  function Upsert(f: Feed, generation: Id, number: nat): map<Native, Row> {
    map n | n in f.resources.Keys + (set k | k in f.staging && k.0 == generation :: k.1) ::
      if (generation, n) !in f.staging then f.resources[n]
      else if n !in f.resources then Row(f.staging[(generation, n)].id, f.staging[(generation, n)].observation, generation, false, 1)
      else if AdmittedBy(f, f.resources[n].generation, number)
      then f.resources[n].(observation := f.staging[(generation, n)].observation, generation := generation, tombstoned := false,
                           version := f.resources[n].version + 1)
      else f.resources[n]
  }

  /** Live rows the generation did not see are tombstoned. */
  function Tombstone(f: Feed, rows: map<Native, Row>, generation: Id, number: nat): map<Native, Row> {
    map n | n in rows ::
      if !rows[n].tombstoned && AdmittedBy(f, rows[n].generation, number) && (generation, n) !in f.staging
      then rows[n].(tombstoned := true, version := rows[n].version + 1) else rows[n]
  }

  predicate Newer(f: Feed, number: nat) {
    exists x :: x in f.runs && f.runs[x].status.Succeeded? && f.runs[x].number > number
  }

  function Close(f: Feed, t: Ticket, status: Status, job: JobState): Feed
    requires t.run in f.runs && t.run in f.jobs
  {
    f.(runs := f.runs[t.run := f.runs[t.run].(status := status)],
       jobs := f.jobs[t.run := f.jobs[t.run].(state := job, lease := None, completed := Some(f.now))])
  }

  /** Publishes a finished scan, or records its failure; both only under the current lease. */
  function Complete(f: Feed, t: Ticket, failure: Option<FailureCode>, allowed: bool): (Feed, Outcome) {
    if !Fenced(f, t) || t.run !in f.runs || !Open(f.runs[t.run]) then (f, LeaseLost)
    else
      var r := f.runs[t.run];
      if failure.Some? then (Close(f, t, Failed, JobFailed), Committed)
      else if !r.complete || r.credential.None? then (f, ScanUnavailable)
      else if !ScanAuthority(f, t, r.credential.value, allowed).Committed? then (f, ScanAuthority(f, t, r.credential.value, allowed))
      else if Newer(f, r.number) then (Close(f, t, Cancelled, JobCancelled), Committed)
      else (Close(f, t, Succeeded, JobSucceeded).(resources := Tombstone(f, Upsert(f, r.generation, r.number), r.generation, r.number)), Committed)
  }

  // ---- Upkeep ----

  /** Staged rows of runs that ended; `chosen` are the old ones of one batch. */
  function PruneStaging(f: Feed, chosen: set<(Id, Native)>): Feed {
    f.(staging := map k | k in f.staging && !(k in chosen && exists x :: x in f.runs && f.runs[x].generation == k.0 && !Open(f.runs[x])) :: f.staging[k])
  }

  /** Jobs that ended a week ago; `chosen` are those of one batch. A run keeps its row when its job goes. */
  predicate PrunableJob(j: Job, now: int) {
    !Active(j) && j.completed.Some? && j.completed.value < now - RETENTION_SECONDS
  }

  function PruneJobs(f: Feed, chosen: set<Id>): Feed {
    f.(jobs := map r | r in f.jobs && !(r in chosen && PrunableJob(f.jobs[r], f.now)) :: f.jobs[r])
  }

  /** Disabling the connection cancels a queued job and leaves its run as it is. */
  function DisableFeed(f: Feed): Feed {
    if !f.active then f
    else f.(active := false,
            jobs := map r | r in f.jobs :: if f.jobs[r].state.JobQueued? then f.jobs[r].(state := JobCancelled, completed := Some(f.now)) else f.jobs[r])
  }

  // ---- The public view ----

  function LiveRows(f: Feed): map<Native, Observation> {
    map n | n in f.resources && !f.resources[n].tombstoned :: f.resources[n].observation
  }

  /** What a reader sees: live rows joined with the succeeded run of their generation. */
  function PublicView(f: Feed): map<Native, Observation> {
    map n | n in f.resources && !f.resources[n].tombstoned
            && (exists x :: x in f.runs && f.runs[x].generation == f.resources[n].generation && f.runs[x].status.Succeeded?)
          :: f.resources[n].observation
  }
}
