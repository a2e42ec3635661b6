/**
 How one transaction may change the rows of one operation: what the reference side of the exactness lemmas is
 made of.
 */
module Rows {
  import opened Options
  import opened Lifecycle
  import opened Tables

  // ---- Jobs ----

  /** Nobody works on it and it is due. */
  predicate Waiting(j: Job, at: int) {
    j.state.JobQueued? && j.nextRun <= at
  }

  /** Somebody took it and let the lease run out. */
  predicate Abandoned(j: Job, at: int) {
    j.state.JobRunning? && j.lease.Some? && j.lease.value.expires <= at
  }

  /** In time, with attempts left, and with nobody on it. */
  predicate FreeJob(j: Job, at: int) {
    at < j.deadline && j.attempts < 100 && (Waiting(j, at) || Abandoned(j, at))
  }

  /** Running under this very lease, and neither it nor the deadline has passed. */
  predicate KeptJob(j: Job, owner: Id, token: Id, at: int) {
    && j.state.JobRunning? && at < j.deadline
    && match j.lease
       case Some(lease) => lease.owner == owner && lease.token == token && at < lease.expires
       case None => false
  }

  /** A lease runs for a minute, but never past the deadline. */
  function KeptOn(j: Job, owner: Id, token: Id, at: int): Job {
    j.(lease := Some(Lease(owner, token, if at + 60 < j.deadline then at + 60 else j.deadline)))
  }

  /** Taking a job uses up one attempt. */
  function TakenJob(j: Job, owner: Id, token: Id, at: int): Job {
    KeptOn(j, owner, token, at).(state := JobRunning, attempts := j.attempts + 1)
  }

  // ---- One operation ----

  /** Nothing outside this operation's rows changed. */
  ghost predicate OthersSame(db: Store, db': Store, id: Id) {
    && db' == db.(entries := db'.entries) && db'.entries.Keys == db.entries.Keys
    && forall x :: x in db.entries && x != id ==> db'.entries[x] == db.entries[x]
  }

  /** Its state moved, the move was appended to its history, and an outcome freed its target. */
  predicate Stepped(e: Entry, e': Entry, to: OpState) {
    var o, o' := e.operation, e'.operation;
    && o' == o.(state := to, sequence := o.sequence + 1, reference := o'.reference)
    && e'.events == e.events + [Event(o.sequence + 1, Some(o.state), to)]
    && (e'.locked <==> e.locked && !to.Succeeded? && !to.Failed? && !to.Cancelled?)
    && e'.resolved == e.resolved
  }

  /** Its job ended, now. */
  predicate Ended(e: Entry, e': Entry, to: JobState, now: int) {
    e.job.Some? && e'.job == Some(e.job.value.(state := to, lease := None, completed := Some(now)))
  }

  /** Its job is due again after the delay, but not past its deadline. */
  predicate Requeued(e: Entry, e': Entry, delay: nat, now: int) {
    && e.job.Some?
    && var j := e.job.value;
    e'.job == Some(j.(state := JobQueued, lease := None, completed := None,
                      nextRun := if now + delay < j.deadline then now + delay else j.deadline))
  }

  lemma AdvanceSteps(e: Entry, to: OpState)
    ensures Stepped(e, Advance(e, to), to) && Advance(e, to).job == e.job && Advance(e, to).operation.reference == e.operation.reference
  {
  }
}
