/**
 What every transaction of the inventory achieves, in terms of its rows: exactly when it takes effect, everything
 it leaves behind, and what each refusal means.
 */
module InventoryEffects {
  import opened Options
  import opened Tables
  import opened Rows
  import opened Inventory
  import opened InventoryRuns

  predicate Unended(r: SyncRun) {
    r.status.Pending? || r.status.Running?
  }

  /** The ticket's lease on a job is live. */
  predicate Leased(f: Feed, t: Ticket) {
    t.run in f.jobs && KeptJob(f.jobs[t.run], t.owner, t.token, f.now)
  }

  /** Its run has not ended either. */
  predicate Scans(f: Feed, t: Ticket) {
    Leased(f, t) && t.run in f.runs && Unended(f.runs[t.run])
  }

  /** The actor is allowed, the connection active, and the credential the one it was read with; version 0 takes any. */
  predicate Permitted(f: Feed, version: int, allowed: bool) {
    allowed && f.active && (version == 0 || version == f.credential)
  }

  lemma GuardExactly(f: Feed, t: Ticket, version: int, allowed: bool)
    ensures ScanAuthority(f, t, version, allowed) ==
            if !Permitted(f, version, allowed) then ScanFailure(PermissionDenied) else if !Scans(f, t) then LeaseLost else Committed
  {
  }

  // ---- Admission ----

  /** A request joins the sync that has not ended; otherwise it admits one with the next number and half an hour to run. */
  lemma Admits(f: Feed, id: Id, count: nat, limit: nat)
    ensures var (f', o) := Admit(f, id, count, limit);
      if exists r :: r in f.runs && Unended(f.runs[r]) then f' == f && o.Committed?
      else if count >= limit then f' == f && o.QuotaReached?
      else if id in f.runs || exists r :: r in f.runs && f.runs[r].generation == id then f' == f && o.ScanUnavailable?
      else
        && o.Committed?
        && f' == f.(runs := f.runs[id := SyncRun(f.numbers, id, Pending, false, false, 0, None)],
                    jobs := f.jobs[id := Job(JobQueued, f.now, None, 0, f.now + 30 * 60, None)], numbers := f.numbers + 1)
  {
    assert forall r :: r in f.runs ==> Open(f.runs[r]) == Unended(f.runs[r]);
  }

  // ---- Leases ----

  /** A claim takes exactly a free job, uses up one attempt and touches nothing else. */
  lemma ClaimsRun(f: Feed, t: Ticket, at: int)
    ensures var (f', o) := ClaimRun(f, t, at);
      if t.run in f.jobs && FreeJob(f.jobs[t.run], at)
      then o.Committed? && f' == f.(jobs := f.jobs[t.run := TakenJob(f.jobs[t.run], t.owner, t.token, at)])
      else o.LeaseLost? && f' == f
  {
  }

  lemma RenewsRun(f: Feed, t: Ticket)
    ensures var (f', o) := RenewRun(f, t);
      if Leased(f, t) then o.Committed? && f' == f.(jobs := f.jobs[t.run := KeptOn(f.jobs[t.run], t.owner, t.token, f.now)])
      else o.LeaseLost? && f' == f
  {
  }

  // ---- Scanning ----

  /** The generation whose rows are staged from now on: the run's own at its first start, a fresh one at every later start. */
  function NextGeneration(r: SyncRun, generation: Id): Id {
    if r.started then generation else r.generation
  }

  /** A start drops exactly what the run had staged, and binds it to the present credential. */
  lemma StartsScan(f: Feed, t: Ticket, allowed: bool, generation: Id)
    ensures var (f', o) := StartScan(f, t, allowed, generation);
      if !Permitted(f, 0, allowed) then f' == f && o == ScanFailure(PermissionDenied)
      else if !Scans(f, t) then f' == f && o.LeaseLost?
      else
        var r := f.runs[t.run];
        if r.started && exists x :: x in f.runs && f.runs[x].generation == generation then f' == f && o.ScanUnavailable?
        else
          && o.Committed? && f' == f.(runs := f'.runs, staging := f'.staging)
          && f'.runs == f.runs[t.run := SyncRun(r.number, NextGeneration(r, generation), Running, true, false, 0, Some(f.credential))]
          && (forall k :: k in f'.staging <==> k in f.staging && k.0 != r.generation)
          && (forall k :: k in f'.staging ==> f'.staging[k] == f.staging[k])
  {
    GuardExactly(f, t, 0, allowed);
  }

  /** Exactly the rows of these items were added under the generation. */
  ghost predicate Added(staging: map<(Id, Native), Staged>, staging': map<(Id, Native), Staged>, generation: Id, data: seq<Item>) {
    && (forall k :: k in staging' <==> k in staging || (k.0 == generation && exists i :: 0 <= i < |data| && data[i].native == k.1))
    && (forall k :: k in staging ==> k in staging' && staging'[k] == staging[k])
    && (forall i :: 0 <= i < |data| ==> (generation, data[i].native) in staging'
                                        && staging'[(generation, data[i].native)] == Staged(data[i].id, data[i].observation))
  }

  /** The rows can be staged: all carry an observation time, and no native identity is staged already or occurs twice. */
  predicate FreshIn(staging: map<(Id, Native), Staged>, generation: Id, data: seq<Item>) {
    && (forall i :: 0 <= i < |data| ==> data[i].observation.timed && (generation, data[i].native) !in staging)
    && (forall i, j :: 0 <= i < j < |data| ==> data[i].native != data[j].native)
  }

  lemma AddsOne(staging: map<(Id, Native), Staged>, generation: Id, data: seq<Item>, staging': map<(Id, Native), Staged>)
    requires data != [] && FreshIn(staging, generation, data)
    requires Added(staging[(generation, data[0].native) := Staged(data[0].id, data[0].observation)], staging', generation, data[1..])
    ensures Added(staging, staging', generation, data)
  {
    var next := staging[(generation, data[0].native) := Staged(data[0].id, data[0].observation)];
    forall k ensures k in staging' <==> k in staging || (k.0 == generation && exists i :: 0 <= i < |data| && data[i].native == k.1) {
      if k in next && k !in staging {
        assert data[0].native == k.1;
      }
      if i :| 0 <= i < |data[1..]| && data[1..][i].native == k.1 {
        assert data[i + 1].native == k.1;
      }
      if i :| 0 < i < |data| && data[i].native == k.1 {
        assert data[1..][i - 1].native == k.1;
      }
    }
    forall i | 0 <= i < |data|
      ensures (generation, data[i].native) in staging' && staging'[(generation, data[i].native)] == Staged(data[i].id, data[i].observation)
    {
      if i == 0 {
        assert (generation, data[0].native) in next;
      } else {
        assert data[1..][i - 1] == data[i];
      }
    }
  }

  lemma FreshTail(staging: map<(Id, Native), Staged>, generation: Id, data: seq<Item>)
    requires data != [] && FreshIn(staging, generation, data)
    ensures FreshIn(staging[(generation, data[0].native) := Staged(data[0].id, data[0].observation)], generation, data[1..])
  {
  }

  lemma FreshAgain(staging: map<(Id, Native), Staged>, generation: Id, data: seq<Item>)
    requires data != [] && data[0].observation.timed && (generation, data[0].native) !in staging
    requires FreshIn(staging[(generation, data[0].native) := Staged(data[0].id, data[0].observation)], generation, data[1..])
    ensures FreshIn(staging, generation, data)
  {
    forall i | 0 <= i < |data| ensures data[i].observation.timed && (generation, data[i].native) !in staging {
      assert i > 0 ==> data[1..][i - 1] == data[i];
    }
    forall i, j | 0 <= i < j < |data| ensures data[i].native != data[j].native {
      assert data[1..][j - 1] == data[j];
      assert i > 0 ==> data[1..][i - 1] == data[i];
    }
  }

  lemma {:induction false} StagesRows(staging: map<(Id, Native), Staged>, generation: Id, data: seq<Item>)
    ensures StageRows(staging, generation, data).Some? <==> FreshIn(staging, generation, data)
    ensures StageRows(staging, generation, data).Some? ==> Added(staging, StageRows(staging, generation, data).value, generation, data)
    decreases |data|
  {
    if data != [] && data[0].observation.timed && (generation, data[0].native) !in staging {
      var next := staging[(generation, data[0].native) := Staged(data[0].id, data[0].observation)];
      StagesRows(next, generation, data[1..]);
      if FreshIn(next, generation, data[1..]) {
        FreshAgain(staging, generation, data);
        AddsOne(staging, generation, data, StageRows(next, generation, data[1..]).value);
      } else if FreshIn(staging, generation, data) {
        FreshTail(staging, generation, data);
      }
    }
  }

  /** A page is staged as a whole or not at all, and records how far the walk has come. */
  lemma StagesPage(f: Feed, t: Ticket, version: int, page: Page, number: nat, allowed: bool)
    ensures var (f', o) := StagePage(f, t, version, page, number, allowed);
      if !Permitted(f, version, allowed) then f' == f && o == ScanFailure(PermissionDenied)
      else if !Scans(f, t) then f' == f && o.LeaseLost?
      else
        var r := f.runs[t.run];
        if !FreshIn(f.staging, r.generation, page.data) then f' == f && o == ScanFailure(ResponseInvalid)
        else
          && o.Committed? && f' == f.(runs := f'.runs, staging := f'.staging)
          && f'.runs == f.runs[t.run := r.(pages := number, complete := page.next == "")]
          && Added(f.staging, f'.staging, r.generation, page.data)
  {
    GuardExactly(f, t, version, allowed);
    if Scans(f, t) {
      StagesRows(f.staging, f.runs[t.run].generation, page.data);
    }
  }

  // ---- Publication ----

  /** The run and its job ended; nothing else about either changed. */
  predicate Closed(f: Feed, f': Feed, run: Id, status: Status, job: JobState) {
    && run in f.runs && run in f.jobs
    && f' == f.(runs := f.runs[run := f.runs[run].(status := status)],
                jobs := f.jobs[run := f.jobs[run].(state := job, lease := None, completed := Some(f.now))],
                resources := f'.resources)
  }

  /** Every page was staged under a credential that is still current, by an actor that is still allowed. */
  predicate MayPublish(f: Feed, r: SyncRun, allowed: bool) {
    r.complete && r.credential.Some? && Permitted(f, r.credential.value, allowed)
  }

  /** A newer run has been published. */
  predicate Overtaken(f: Feed, r: SyncRun) {
    exists x :: x in f.runs && f.runs[x].status.Succeeded? && f.runs[x].number > r.number
  }

  /**
   A completion under the live lease records the failure it is given, or publishes exactly a complete scan whose
   actor is still allowed and whose credential is still current; whoever is not allowed any more publishes nothing.
   */
  lemma Completes(f: Feed, t: Ticket, failure: Option<FailureCode>, allowed: bool)
    ensures var (f', o) := Complete(f, t, failure, allowed);
      if !Scans(f, t) then f' == f && o.LeaseLost?
      else if failure.Some? then o.Committed? && Closed(f, f', t.run, Failed, JobFailed) && f'.resources == f.resources
      else
        var r := f.runs[t.run];
        if !MayPublish(f, r, allowed)
        then f' == f && o == if r.complete && r.credential.Some? then ScanFailure(PermissionDenied) else ScanUnavailable
        else if Overtaken(f, r) then o.Committed? && Closed(f, f', t.run, Cancelled, JobCancelled) && f'.resources == f.resources
        else o.Committed? && Closed(f, f', t.run, Succeeded, JobSucceeded)
  {
    if Scans(f, t) && f.runs[t.run].credential.Some? {
      GuardExactly(f, t, f.runs[t.run].credential.value, allowed);
    }
  }

  /** Nothing is published for an actor that is not allowed any more. */
  lemma DeniedPublishesNothing(f: Feed, t: Ticket, allowed: bool)
    requires !allowed
    ensures var (f', o) := Complete(f, t, None, allowed); f' == f && !o.Committed?
  {
    Completes(f, t, None, allowed);
  }

  // ---- Upkeep ----

  /** Exactly the chosen staged rows of a run that ended are dropped. */
  lemma PrunesStaging(f: Feed, chosen: set<(Id, Native)>)
    ensures var f' := PruneStaging(f, chosen);
      && f' == f.(staging := f'.staging)
      && (forall k :: k in f'.staging ==> k in f.staging && f'.staging[k] == f.staging[k])
      && forall k :: k in f.staging ==>
           (k !in f'.staging <==> k in chosen && exists x :: x in f.runs && f.runs[x].generation == k.0 && !Unended(f.runs[x]))
  {
    assert forall r :: r in f.runs ==> Open(f.runs[r]) == Unended(f.runs[r]);
  }

  /** Exactly the chosen jobs that ended more than a week ago are dropped. */
  lemma PrunesJobs(f: Feed, chosen: set<Id>)
    ensures var f' := PruneJobs(f, chosen);
      && f' == f.(jobs := f'.jobs)
      && (forall r :: r in f'.jobs ==> r in f.jobs && f'.jobs[r] == f.jobs[r])
      && forall r :: r in f.jobs ==>
           (r !in f'.jobs <==>
              && r in chosen && (f.jobs[r].state.JobSucceeded? || f.jobs[r].state.JobFailed? || f.jobs[r].state.JobCancelled?)
              && f.jobs[r].completed.Some? && f.jobs[r].completed.value < f.now - 7 * 24 * 60 * 60)
  {
  }

  /** Disabling cancels exactly a queued job. */
  lemma Disables(f: Feed)
    ensures var f' := DisableFeed(f);
      && f' == f.(active := false, jobs := f'.jobs) && f'.jobs.Keys == f.jobs.Keys
      && forall r :: r in f.jobs ==>
           f'.jobs[r] == if f.active && f.jobs[r].state.JobQueued? then f.jobs[r].(state := JobCancelled, completed := Some(f.now)) else f.jobs[r]
  {
  }

  // ---- Limits of a walk ----

  /** What a page adds to a walk that keeps within all limits: they are those of the whole walk. */
  lemma {:induction false} WithinLimits(visits: seq<Visit>)
    requires forall i :: 0 <= i < |visits| ==> Fits(visits[..i], visits[i].page)
    ensures Count(visits) <= 10000 && Bytes(visits) <= 32 * 1024 * 1024
    ensures forall i :: 0 <= i < |visits| ==>
              && |visits[i].page.data| <= 200 && visits[i].page.bytes <= 8 * 1024 * 1024 && |visits[i].page.next| <= 512
    ensures forall i, j :: 0 <= i < j < |visits| && visits[j].page.next != "" ==> visits[i].page.next != visits[j].page.next
  {
    if visits != [] {
      var n := |visits| - 1;
      assert Fits(visits[..n], visits[n].page);
    }
    forall i, j | 0 <= i < j < |visits| && visits[j].page.next != "" ensures visits[i].page.next != visits[j].page.next {
      assert Fits(visits[..j], visits[j].page);
      assert visits[..j][i] in visits[..j];
    }
  }
}
