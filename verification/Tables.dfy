/**
 The rows of the operation tables and the elementary statements the transactions are made of.
 One value of type Store is one committed database state. The unique indexes give an operation one
 job, one lock row, one resolution and one numbered event history, so these rows are kept together
 with it as one entry; a lock row carries nothing but the target the operation was accepted for.
 Times are whole seconds of one clock.
 */
module Tables {
  import opened Options
  import opened Lifecycle
  import opened Receipts
  import M = Membership

  type Id = nat

  /** The identity a reservation is keyed by. */
  datatype Target = Target(workspace: Id, connection: Id, kind: Kind, scope: nat, native: nat)

  /** The digest binds an intent to every identity it was reviewed for; it is taken as injective. */
  datatype Digest = Digest(action: Action, workspace: Id, actor: M.User, connection: Id, resource: Id, review: Id)

  /** The workspace's policy version together with the process's action switches, taken as injective. */
  datatype Stamp = Stamp(workspace: int, switches: int)

  datatype Review = Review(
    workspace: Id, actor: M.User, connection: Id, resource: Id, action: Action, hash: Digest,
    fingerprint: nat, credential: int, policy: Stamp, high: bool, name: string, expires: int,
    consumed: Option<Id>)

  datatype Operation = Operation(
    workspace: Id, actor: M.User, connection: Id, resource: Id, target: Target, action: Action,
    hash: Digest, key: string, review: Id, credential: int, policy: Stamp,
    state: OpState, sequence: nat, reference: Option<string>)

  datatype JobState = JobQueued | JobRunning | JobSucceeded | JobFailed | JobCancelled

  datatype Lease = Lease(owner: Id, token: Id, expires: int)

  datatype Job = Job(state: JobState, nextRun: int, lease: Option<Lease>, attempts: nat, deadline: int, completed: Option<int>)

  datatype Connection = Connection(workspace: Id, family: nat, active: bool, credential: int, verified: set<Action>)

  datatype Gate = Gate(open: bool, version: int)

  /** Everything stored about one operation: `locked` and `resolved` say that such a row exists. */
  datatype Entry = Entry(operation: Operation, events: seq<Event>, job: Option<Job>, locked: bool, resolved: bool)

  datatype Store = Store(
    now: int,
    workspaces: map<Id, M.Workspace>,
    connections: map<Id, Connection>,
    resources: map<Id, Target>,
    reviews: map<Id, Review>,
    entries: map<Id, Entry>,
    gate: Gate)

  datatype Code =
    | Done | ErrStore | ErrDenied | ErrStale | ErrUnsupported | ErrProvider | ErrState | ErrLease
    | ErrRecovery | ErrInvalid | ErrBusy | ErrQuota | ErrConflict | ErrNotFound | ErrRecent

  const ATTEMPTS_MAX := 100
  const LEASE_SECONDS := 60
  const OPERATION_SECONDS := 30 * 60
  const RECHECK_SECONDS := 5 * 60
  const REVIEW_SECONDS := 5 * 60
  const RETENTION_SECONDS := 7 * 24 * 60 * 60
  const REVIEWS_MAX := 100
  const EXPIRE_BATCH := 50

  function Min(a: int, b: int): int {
    if a < b then a else b
  }

  predicate Active(j: Job) {
    j.state.JobQueued? || j.state.JobRunning?
  }

  /** A claim: the operation whose job was claimed, by whom, under which token. */
  datatype Claimed = Claimed(operation: Id, owner: Id, token: Id)

  /** The guard every fenced statement repeats. */
  predicate LiveIn(e: Entry, l: Claimed, now: int) {
    && e.job.Some?
    && var j := e.job.value;
    && j.state.JobRunning? && j.lease.Some?
    && j.lease.value.owner == l.owner && j.lease.value.token == l.token
    && j.lease.value.expires > now && j.deadline > now
  }

  predicate LeaseLive(db: Store, l: Claimed) {
    l.operation in db.entries && LiveIn(db.entries[l.operation], l, db.now)
  }

  function Put(db: Store, id: Id, e: Entry): Store {
    db.(entries := db.entries[id := e])
  }

  /** Moves an operation and appends its event; a terminal state deletes its lock row in the same commit. */
  function Advance(e: Entry, to: OpState): Entry {
    var o := e.operation;
    e.(operation := o.(state := to, sequence := o.sequence + 1),
       events := e.events + [Event(o.sequence + 1, Some(o.state), to)],
       locked := e.locked && !Terminal(to))
  }

  function WithJob(e: Entry, j: Job): Entry {
    e.(job := Some(j))
  }

  /** The job row after its holder hands it back, either for another run or for good. */
  function Finished(j: Job, to: JobState, next: int, now: int): Job {
    if to.JobQueued? then j.(state := to, nextRun := next, lease := None, completed := None)
    else j.(state := to, lease := None, completed := Some(now))
  }

  /** An operation may still have an effect nobody signed off. */
  predicate Holds(e: Entry) {
    Unsettled(e.operation.state) || (e.operation.state.Unknown? && !e.resolved)
  }

  predicate HasActiveJob(e: Entry) {
    e.job.Some? && Active(e.job.value)
  }

  // ---- What every committed state satisfies ----

  /** The row checks of the job table. */
  ghost predicate JobRow(j: Job) {
    && (j.state.JobRunning? <==> j.lease.Some?)
    && j.attempts <= ATTEMPTS_MAX
    && j.nextRun <= j.deadline
    && (j.lease.Some? ==> j.lease.value.expires <= j.deadline)
    && (Active(j) ==> j.completed.None?)
  }

  /** The job, the lock and the resolution of one operation agree with its state. */
  ghost predicate RowOk(e: Entry) {
    var o := e.operation;
    && |e.events| == o.sequence
    && (Unsettled(o.state) ==> e.job.Some? && (Active(e.job.value) || e.job.value.state.JobCancelled?))
    && (o.state.Unknown? ==> e.job.Some?)
    && (HasActiveJob(e) ==> Unsettled(o.state))
    && (e.resolved ==> o.state.Unknown?)
    && (e.locked <==> Holds(e))
    && (e.job.Some? ==> JobRow(e.job.value))
    && o.target.workspace == o.workspace && o.target.connection == o.connection
  }

  /** So do the history and the reference. */
  ghost predicate EntryOk(e: Entry) {
    RowOk(e) && Chain(e.events, e.operation.state) && StorableReference(e.operation.action, e.operation.reference)
  }

  ghost predicate BoundTo(o: Operation, r: Review, id: Id) {
    && r.consumed == Some(id)
    && r.workspace == o.workspace && r.actor == o.actor && r.connection == o.connection
    && r.resource == o.resource && r.action == o.action && r.hash == o.hash
    && r.credential == o.credential && r.policy == o.policy
  }

  ghost predicate Reviewed(db: Store, id: Id)
    requires id in db.entries
  {
    var o := db.entries[id].operation;
    o.review in db.reviews && BoundTo(o, db.reviews[o.review], id)
  }

  ghost predicate ReviewOk(db: Store, r: Id)
    requires r in db.reviews
  {
    var v := db.reviews[r];
    && v.hash == Digest(v.action, v.workspace, v.actor, v.connection, v.resource, r)
    && (v.consumed.Some? ==> v.consumed.value in db.entries && db.entries[v.consumed.value].operation.review == r)
  }

  predicate SameKey(a: Operation, b: Operation) {
    a.workspace == b.workspace && a.actor == b.actor && a.key == b.key
  }

  /** Two different operations never share an idempotency key, nor a lock on one target. */
  ghost predicate Apart(a: Entry, b: Entry) {
    && !SameKey(a.operation, b.operation)
    && !(a.locked && b.locked && a.operation.target == b.operation.target)
  }

  ghost predicate Consistent(db: Store) {
    && (forall id :: id in db.entries ==> EntryOk(db.entries[id]) && Reviewed(db, id))
    && (forall r :: r in db.reviews ==> ReviewOk(db, r))
    && (forall a, b :: a in db.entries && b in db.entries && a != b ==> Apart(db.entries[a], db.entries[b]))
  }

  // ---- Statements that keep it ----

  ghost predicate SameIdentity(o: Operation, o': Operation) {
    o' == o.(state := o'.state, sequence := o'.sequence, reference := o'.reference)
  }

  lemma PutReviewed(db: Store, id: Id, e: Entry, x: Id)
    requires id in db.entries && SameIdentity(db.entries[id].operation, e.operation)
    requires x in db.entries && Reviewed(db, x)
    ensures Reviewed(Put(db, id, e), x)
  {
  }

  lemma PutReviewOk(db: Store, id: Id, e: Entry, r: Id)
    requires id in db.entries && SameIdentity(db.entries[id].operation, e.operation)
    requires r in db.reviews && ReviewOk(db, r)
    ensures ReviewOk(Put(db, id, e), r)
  {
  }

  lemma PutApart(e: Entry, e': Entry, other: Entry)
    requires SameIdentity(e.operation, e'.operation) && (e'.locked ==> e.locked)
    ensures Apart(e, other) ==> Apart(e', other)
    ensures Apart(other, e) ==> Apart(other, e')
  {
  }

  /** A transaction on one operation keeps everything consistent as soon as its own entry is right. */
  lemma PutKeeps(db: Store, id: Id, e: Entry)
    requires Consistent(db) && id in db.entries
    requires EntryOk(e) && SameIdentity(db.entries[id].operation, e.operation)
    requires e.locked ==> db.entries[id].locked
    ensures Consistent(Put(db, id, e))
  {
    var db' := Put(db, id, e);
    forall x | x in db'.entries ensures EntryOk(db'.entries[x]) && Reviewed(db', x) {
      PutReviewed(db, id, e, x);
    }
    forall r | r in db'.reviews ensures ReviewOk(db', r) {
      PutReviewOk(db, id, e, r);
    }
    forall a, b | a in db'.entries && b in db'.entries && a != b ensures Apart(db'.entries[a], db'.entries[b]) {
      var x, y := db.entries[a], db.entries[b];
      assert Apart(x, y);
      if a == id {
        PutApart(x, e, y);
      } else if b == id {
        PutApart(y, e, x);
      }
    }
  }

  /** A commit that leaves the operations and reviews alone. */
  lemma ApartKeeps(db: Store, db': Store)
    requires Consistent(db) && db'.reviews == db.reviews && db'.entries == db.entries
    ensures Consistent(db')
  {
    forall x | x in db'.entries ensures Reviewed(db', x) {
      assert Reviewed(db, x);
    }
    forall r | r in db'.reviews ensures ReviewOk(db', r) {
      assert ReviewOk(db, r);
    }
  }

  /**
   Moving an operation together with its job: the one obligation of a transaction is that the job
   is left active exactly when the new state still owes work.
   */
  lemma AdvanceOk(e: Entry, to: OpState, j: Job)
    requires EntryOk(e) && Allowed(e.operation.state, to) && !e.resolved
    requires JobRow(j)
    requires Active(j) ==> Unsettled(to)
    requires Unsettled(to) ==> Active(j) || j.state.JobCancelled?
    ensures EntryOk(WithJob(Advance(e, to), j))
  {
    ChainExtends(e.events, e.operation.state, to);
  }
}
