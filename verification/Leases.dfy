/**
 Who may take an operation's job and who may keep it, in terms of its row.
 */
module Leases {
  import opened Options
  import opened Lifecycle
  import opened Tables
  import opened Rows
  import opened Transactions

  /** There is work to take. */
  predicate Takeable(e: Entry, at: int) {
    e.job.Some? && FreeJob(e.job.value, at)
  }

  /** The lease of a running job is the caller's own, and neither it nor the job's deadline has passed. */
  predicate Keeps(e: Entry, l: Claimed, at: int) {
    e.job.Some? && KeptJob(e.job.value, l.owner, l.token, at)
  }

  /** A claim takes exactly what can be taken, uses up one attempt, and touches nothing but that job. */
  lemma ClaimsExactly(db: Store, l: Claimed, at: int)
    ensures var (db', code) := Claim(db, l, at);
      && (code.Done? <==> l.operation in db.entries && Takeable(db.entries[l.operation], at))
      && (!code.Done? ==> db' == db && code == ErrLease)
      && (code.Done? ==>
            && OthersSame(db, db', l.operation)
            && var e := db.entries[l.operation];
            db'.entries[l.operation] == e.(job := Some(TakenJob(e.job.value, l.owner, l.token, at))))
  {
  }

  /** A renewal succeeds exactly for the holder of a lease that has not run out, and moves nothing but its end. */
  lemma RenewsExactly(db: Store, l: Claimed, at: int)
    ensures var (db', code) := Renew(db, l, at);
      && (code.Done? <==> l.operation in db.entries && Keeps(db.entries[l.operation], l, at))
      && (!code.Done? ==> db' == db && code == ErrLease)
      && (code.Done? ==>
            && OthersSame(db, db', l.operation)
            && var e := db.entries[l.operation];
            db'.entries[l.operation] == e.(job := Some(KeptOn(e.job.value, l.owner, l.token, at))))
  {
  }

  /** Nobody takes what its holder still keeps. */
  lemma KeptIsNotTaken(e: Entry, l: Claimed, at: int)
    requires Keeps(e, l, at)
    ensures !Takeable(e, at)
  {
  }
}
